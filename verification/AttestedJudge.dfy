/**
 The attested judge: expectations rebuilt from artifacts, one verified attestation set, and the upgrade
 of a clean verdict to a pass.

 The review packet and the broker evidence are opaque checks here.
 */
module AttestedJudge {
  import opened Wrappers
  import opened Utf8
  import opened Manifest
  import opened Models
  import opened Judge
  import opened JudgeVerdict
  import opened Derive
  import opened DeriveFacts
  import opened TrustedRequests
  import N = Nonces

  /** Broker executions re-finalized from the frozen evidence: their run bindings, if they finalize. */
  datatype BrokerInputs = BrokerInputs(bindings: Option<seq<RunBinding>>)

  datatype Submission = Submission(
    task: Task, policy: PolicyReport, reviews: seq<Review>, gates: seq<Gate>, tdds: seq<Tdd>, taskSha: string,
    bindings: seq<RunBinding>, offline: Option<Inputs>, broker: Option<BrokerInputs>,
    packetValid: bool, brokerEvidenceValid: bool, context: TrustedContext,
    provenance: OfflineRun -> Provenance, requestDigest: TrustedRequest -> string, digest: Artifact -> string)

  function GroundOf(s: Submission): Ground {
    Ground(s.task, s.policy, s.taskSha, s.context, s.requestDigest)
  }

  /**
   The inputs of the offline derivation are this submission's own task, policy, task hash and snapshots,
   and no two artifacts have the same digest.
   */
  ghost predicate Consistent(s: Submission) {
    && ValidTask(s.task) && ValidPolicy(s.policy)
    && (forall i :: 0 <= i < |s.reviews| ==> ValidReview(s.reviews[i]))
    && (forall i :: 0 <= i < |s.gates| ==> ValidGate(s.gates[i]))
    && (forall i :: 0 <= i < |s.tdds| ==> ValidTdd(s.tdds[i]))
    && (s.offline.Some? ==>
          && s.offline.value.task == s.task && s.offline.value.policy == s.policy
          && s.offline.value.taskSha == s.taskSha
          && s.offline.value.context.base.sha == s.context.baseSnapshot
          && s.offline.value.context.candidate.sha == s.context.candidateSnapshot)
    && CollisionFree(s.digest)
  }

  ghost predicate CollisionFree(digest: Artifact -> string) {
    forall x: Artifact, y: Artifact :: digest(x) == digest(y) ==> x == y
  }

  // ---------------------------------------------------------------- the roles a task demands

  function TestIds(task: Task): set<string> {
    set i | 0 <= i < |task.acceptance| && task.acceptance[i].isTest :: task.acceptance[i].id
  }

  function ReviewRoles(): set<N.RoleName> {
    {N.ReviewerRole, N.AdversaryRole}
  }

  /** `_expected_roles` */
  function ExpectedRoles(task: Task): set<N.RoleName> {
    {N.TaskRole, N.PolicyRole} + ReviewRoles()
    + (set id | id in AcceptanceIds(task) :: N.GateRole(id))
    + (set id | id in TestIds(task) :: N.RedRole(id))
    + (set id | id in TestIds(task) :: N.GreenRole(id))
  }

  predicate OfflineRole(role: N.RoleName) {
    role.GateRole? || role.RedRole? || role.GreenRole?
  }

  function GateId(gate: Gate): string { gate.acceptanceId }

  function TddId(tdd: Tdd): string { tdd.acceptanceId }

  function RoleOf(binding: RunBinding): N.RoleName { binding.role }

  function SessionOf(binding: RunBinding): string { binding.session }

  function ReviewerRoleOf(review: Review): ReviewRole { review.role }

  // ---------------------------------------------------------------- building the expectations

  /** The artifacts and bindings every later check uses. */
  datatype Effective = Effective(gates: seq<Gate>, tdds: seq<Tdd>, bindings: seq<RunBinding>)

  predicate NoneOffline(bindings: seq<RunBinding>) {
    forall i :: 0 <= i < |bindings| ==> !OfflineRole(bindings[i].role)
  }

  predicate NoneReview(bindings: seq<RunBinding>) {
    forall i :: 0 <= i < |bindings| ==> bindings[i].role !in ReviewRoles()
  }

  function BindingsOf(s: Submission, runs: seq<OfflineRun>): seq<RunBinding> {
    seq(|runs|, i requires 0 <= i < |runs| => BindingOf(runs[i], s.provenance(runs[i])))
  }

  /** Artifacts and bindings re-derived from raw evidence; the submitted artifacts must be the same. */
  function EffectiveOf(s: Submission): Option<Effective> {
    if s.offline.None? || s.broker.None? || s.broker.value.bindings.None? then None
    else
      match Artifacts(s.offline.value)
      case None => None
      case Some(d) =>
        var bindings := s.bindings + BindingsOf(s, d.bindings);
        if multiset(s.gates) == multiset(d.gates) && multiset(s.tdds) == multiset(d.tdds)
          && NoneOffline(s.bindings) && NoneReview(bindings)
        then Some(Effective(d.gates, d.tdds, bindings + s.broker.value.bindings.value)) else None
  }

  method UseRawEvidence(s: Submission) returns (e: Option<Effective>)
    requires Consistent(s)
    ensures e == EffectiveOf(s)
  {
    if s.offline.None? || s.broker.None? { return None; }
    var derived := DeriveArtifacts(s.offline.value);
    if derived.None? || multiset(s.gates) != multiset(derived.value.gates)
      || multiset(s.tdds) != multiset(derived.value.tdds) || !NoneOffline(s.bindings)
    {
      return None;
    }
    var bindings := s.bindings + BindingsOf(s, derived.value.bindings);
    if s.broker.value.bindings.None? || !NoneReview(bindings) { return None; }
    return Some(Effective(derived.value.gates, derived.value.tdds, bindings + s.broker.value.bindings.value));
  }

  /** Each gate and record belongs to one acceptance, exactly once. */
  predicate ExactlyCovered(task: Task, e: Effective) {
    && UniqueKeys(e.gates, GateId) && ByKey(e.gates, GateId).Keys == AcceptanceIds(task)
    && UniqueKeys(e.tdds, TddId) && ByKey(e.tdds, TddId).Keys == TestIds(task)
    && e.tdds != []
  }

  predicate RunsCovered(task: Task, bindings: seq<RunBinding>) {
    && UniqueKeys(bindings, RoleOf) && ByKey(bindings, RoleOf).Keys == ExpectedRoles(task)
    && UniqueKeys(bindings, SessionOf)
  }

  predicate PanelPresent(reviews: seq<Review>) {
    UniqueKeys(reviews, ReviewerRoleOf) && ByKey(reviews, ReviewerRoleOf).Keys == {Reviewer, Adversary}
  }

  method Covers(s: Submission, e: Effective) returns (ok: bool)
    ensures ok <==> ExactlyCovered(s.task, e) && RunsCovered(s.task, e.bindings) && PanelPresent(s.reviews)
  {
    var gates := ExactlyOnce(e.gates, GateId);
    if gates.None? || gates.value.Keys != AcceptanceIds(s.task) { return false; }
    var tdds := ExactlyOnce(e.tdds, TddId);
    if tdds.None? || tdds.value.Keys != TestIds(s.task) || e.tdds == [] { return false; }
    var runs := ExactlyOnce(e.bindings, RoleOf);
    if runs.None? || runs.value.Keys != ExpectedRoles(s.task) { return false; }
    var sessions := ExactlyOnce(e.bindings, SessionOf);
    if sessions.None? { return false; }
    var reviews := ExactlyOnce(s.reviews, ReviewerRoleOf);
    return reviews.Some? && reviews.value.Keys == {Reviewer, Adversary};
  }

  // ---------------------------------------------------------------- the requests behind them

  predicate GateRequestMet(s: Submission, runs: map<N.RoleName, RunBinding>, gate: Gate) {
    N.GateRole(gate.acceptanceId) in runs
    && Met(GroundOf(s), runs[N.GateRole(gate.acceptanceId)], GateArtifact(gate))
  }

  predicate TddRequestsMet(s: Submission, runs: map<N.RoleName, RunBinding>, tdd: Tdd) {
    var red, green := N.RedRole(tdd.acceptanceId), N.GreenRole(tdd.acceptanceId);
    && red in runs && Met(GroundOf(s), runs[red], RedOf(tdd))
    && green in runs && Met(GroundOf(s), runs[green], GreenOf(tdd))
  }

  function RoleNameOf(role: ReviewRole): N.RoleName {
    if role.Reviewer? then N.ReviewerRole else N.AdversaryRole
  }

  predicate ReviewRequestMet(s: Submission, runs: map<N.RoleName, RunBinding>, review: Review) {
    RoleNameOf(review.role) in runs && Met(GroundOf(s), runs[RoleNameOf(review.role)], ReviewArtifact(review))
  }

  predicate PlainRequestsMet(s: Submission, runs: map<N.RoleName, RunBinding>) {
    && s.policy.patch.Some?
    && N.TaskRole in runs && Met(GroundOf(s), runs[N.TaskRole], TaskArtifact(s.task))
    && N.PolicyRole in runs && Met(GroundOf(s), runs[N.PolicyRole], PolicyArtifact(s.policy))
  }

  predicate RequestsMet(s: Submission, e: Effective)
    requires UniqueKeys(e.bindings, RoleOf)
  {
    AllRequestsMet(s, e, ByKey(e.bindings, RoleOf))
  }

  predicate AllRequestsMet(s: Submission, e: Effective, runs: map<N.RoleName, RunBinding>) {
    && PlainRequestsMet(s, runs) && GateRequestsMet(s, runs, e.gates)
    && PhaseRequestsMet(s, runs, e.tdds) && ReviewRequestsMet(s, runs, s.reviews)
  }

  predicate GateRequestsMet(s: Submission, runs: map<N.RoleName, RunBinding>, gates: seq<Gate>) {
    forall i :: 0 <= i < |gates| ==> GateRequestMet(s, runs, gates[i])
  }

  predicate PhaseRequestsMet(s: Submission, runs: map<N.RoleName, RunBinding>, tdds: seq<Tdd>) {
    forall i :: 0 <= i < |tdds| ==> TddRequestsMet(s, runs, tdds[i])
  }

  predicate ReviewRequestsMet(s: Submission, runs: map<N.RoleName, RunBinding>, reviews: seq<Review>) {
    forall i :: 0 <= i < |reviews| ==> ReviewRequestMet(s, runs, reviews[i])
  }

  /** A record ran its phases on the patched base and on the candidate, with the declared tests. */
  predicate SnapshotBound(task: Task, tdd: Tdd, context: TrustedContext) {
    var a := Find(task.acceptance, tdd.acceptanceId);
    a.Some? && a.value.isTest ==>
      && tdd.version2 && tdd.redSnapshot != Some(context.baseSnapshot)
      && tdd.greenSnapshot == Some(context.candidateSnapshot) && tdd.testPaths == a.value.testPaths
  }

  predicate SnapshotsBound(task: Task, tdds: seq<Tdd>, context: TrustedContext) {
    forall i :: 0 <= i < |tdds| ==> SnapshotBound(task, tdds[i], context)
  }

  method CheckSnapshots(task: Task, tdds: seq<Tdd>, context: TrustedContext) returns (ok: bool)
    ensures ok <==> SnapshotsBound(task, tdds, context)
  {
    for i := 0 to |tdds|
      invariant forall k :: 0 <= k < i ==> SnapshotBound(task, tdds[k], context)
    {
      if !SnapshotBound(task, tdds[i], context) {
        return false;
      }
    }
    return true;
  }

  /** Expectations can be built for this submission. */
  predicate Buildable(s: Submission) {
    && s.task.version2 && s.packetValid && s.brokerEvidenceValid && EffectiveOf(s).Some?
    && var e := EffectiveOf(s).value;
       && SnapshotsBound(s.task, e.tdds, s.context) && ExactlyCovered(s.task, e)
       && RunsCovered(s.task, e.bindings) && PanelPresent(s.reviews) && RequestsMet(s, e)
  }

  /** The artifact every role stands for. */
  function ArtifactsByRole(s: Submission, e: Effective): (artifacts: map<N.RoleName, Artifact>)
    requires ExactlyCovered(s.task, e) && PanelPresent(s.reviews)
    ensures artifacts.Keys == ExpectedRoles(s.task)
  {
    var gates, tdds := ByKey(e.gates, GateId), ByKey(e.tdds, TddId);
    var reviews := ByKey(s.reviews, ReviewerRoleOf);
    map role | role in ExpectedRoles(s.task) :: ArtifactOf(s, gates, tdds, reviews, role)
  }

  function ArtifactOf(
    s: Submission, gates: map<string, Gate>, tdds: map<string, Tdd>, reviews: map<ReviewRole, Review>,
    role: N.RoleName): Artifact
    requires role in ExpectedRoles(s.task)
    requires gates.Keys == AcceptanceIds(s.task) && tdds.Keys == TestIds(s.task)
    requires reviews.Keys == {Reviewer, Adversary}
  {
    match role
    case TaskRole => TaskArtifact(s.task)
    case PolicyRole => PolicyArtifact(s.policy)
    case ReviewerRole => ReviewArtifact(reviews[Reviewer])
    case AdversaryRole => ReviewArtifact(reviews[Adversary])
    case GateRole(id) => GateArtifact(gates[id])
    case RedRole(id) => RedOf(tdds[id])
    case GreenRole(id) => GreenOf(tdds[id])
  }

  /** Every value is found again under its key. */
  lemma {:induction false} ByKeyAt<K, V>(values: seq<V>, key: V -> K, i: nat)
    requires UniqueKeys(values, key) && i < |values|
    ensures key(values[i]) in ByKey(values, key) && ByKey(values, key)[key(values[i])] == values[i]
  {
    assert values[i] in values;
  }

  function Expected(s: Submission, run: RunBinding, x: Artifact): N.Binding {
    N.Binding(run.role, run.session, s.digest(x), SignedOf(GroundOf(s), run, x))
  }

  function Expectations(
    s: Submission, runs: map<N.RoleName, RunBinding>, artifacts: map<N.RoleName, Artifact>,
    roles: set<N.RoleName>): map<N.RoleName, N.Binding>
    requires roles <= runs.Keys && roles <= artifacts.Keys
  {
    map role | role in roles :: Expected(s, runs[role], artifacts[role])
  }

  /** The expectation of one role, added to those of other roles. */
  function ExpectOne(
    s: Submission, runs: map<N.RoleName, RunBinding>, artifacts: map<N.RoleName, Artifact>, role: N.RoleName,
    found: map<N.RoleName, N.Binding>, ghost roles: set<N.RoleName>): (more: map<N.RoleName, N.Binding>)
    requires roles <= runs.Keys && roles <= artifacts.Keys && role in runs && role in artifacts
    requires found == Expectations(s, runs, artifacts, roles)
    ensures more == Expectations(s, runs, artifacts, roles + {role})
  {
    found[role := Expected(s, runs[role], artifacts[role])]
  }

  method ExpectGates(
    s: Submission, runs: map<N.RoleName, RunBinding>, artifacts: map<N.RoleName, Artifact>, gates: seq<Gate>)
    returns (made: Option<map<N.RoleName, N.Binding>>)
    requires GatesIn(artifacts, gates)
    ensures made.Some? <==> GateRequestsMet(s, runs, gates)
    ensures made.Some? ==>
              && GateRoleNames(gates) <= runs.Keys && GateRoleNames(gates) <= artifacts.Keys
              && made.value == Expectations(s, runs, artifacts, GateRoleNames(gates))
  {
    var found: map<N.RoleName, N.Binding> := map[];
    for i := 0 to |gates|
      invariant forall k :: 0 <= k < i ==> GateRequestMet(s, runs, gates[k])
      invariant (set k | 0 <= k < i :: N.GateRole(gates[k].acceptanceId)) <= runs.Keys
      invariant (set k | 0 <= k < i :: N.GateRole(gates[k].acceptanceId)) <= artifacts.Keys
      invariant found == Expectations(s, runs, artifacts, set k | 0 <= k < i :: N.GateRole(gates[k].acceptanceId))
    {
      var role := N.GateRole(gates[i].acceptanceId);
      if !GateRequestMet(s, runs, gates[i]) {
        return None;
      }
      found := found[role := Expected(s, runs[role], GateArtifact(gates[i]))];
    }
    return Some(found);
  }

  predicate GatesIn(artifacts: map<N.RoleName, Artifact>, gates: seq<Gate>) {
    forall i :: 0 <= i < |gates| ==>
      && N.GateRole(gates[i].acceptanceId) in artifacts
      && artifacts[N.GateRole(gates[i].acceptanceId)] == GateArtifact(gates[i])
  }

  predicate TddsIn(artifacts: map<N.RoleName, Artifact>, tdds: seq<Tdd>) {
    forall i :: 0 <= i < |tdds| ==>
      && N.RedRole(tdds[i].acceptanceId) in artifacts && N.GreenRole(tdds[i].acceptanceId) in artifacts
      && artifacts[N.RedRole(tdds[i].acceptanceId)] == RedOf(tdds[i])
      && artifacts[N.GreenRole(tdds[i].acceptanceId)] == GreenOf(tdds[i])
  }

  predicate ReviewsIn(artifacts: map<N.RoleName, Artifact>, reviews: seq<Review>) {
    forall i :: 0 <= i < |reviews| ==>
      && RoleNameOf(reviews[i].role) in artifacts
      && artifacts[RoleNameOf(reviews[i].role)] == ReviewArtifact(reviews[i])
  }

  lemma {:induction false} GateArtifactsIn(s: Submission, e: Effective)
    requires ExactlyCovered(s.task, e) && PanelPresent(s.reviews)
    ensures GatesIn(ArtifactsByRole(s, e), e.gates)
  {
    var artifacts := ArtifactsByRole(s, e);
    forall i | 0 <= i < |e.gates|
      ensures var role := N.GateRole(e.gates[i].acceptanceId);
              role in artifacts && artifacts[role] == GateArtifact(e.gates[i])
    {
      ByKeyAt(e.gates, GateId, i);
      assert N.GateRole(e.gates[i].acceptanceId) in ExpectedRoles(s.task);
    }
  }

  lemma {:induction false} PhaseArtifacts(s: Submission, e: Effective, i: nat, role: N.RoleName)
    requires ExactlyCovered(s.task, e) && PanelPresent(s.reviews) && i < |e.tdds|
    requires var id := e.tdds[i].acceptanceId; role == N.RedRole(id) || role == N.GreenRole(id)
    ensures var artifacts := ArtifactsByRole(s, e);
            && role in artifacts
            && artifacts[role] == if role.RedRole? then RedOf(e.tdds[i]) else GreenOf(e.tdds[i])
  {
    ByKeyAt(e.tdds, TddId, i);
    assert e.tdds[i].acceptanceId in TestIds(s.task);
    assert role in ExpectedRoles(s.task);
  }

  lemma {:induction false} TddArtifactsIn(s: Submission, e: Effective)
    requires ExactlyCovered(s.task, e) && PanelPresent(s.reviews)
    ensures TddsIn(ArtifactsByRole(s, e), e.tdds)
  {
    forall i | 0 <= i < |e.tdds|
      ensures var artifacts, id := ArtifactsByRole(s, e), e.tdds[i].acceptanceId;
              && N.RedRole(id) in artifacts && artifacts[N.RedRole(id)] == RedOf(e.tdds[i])
              && N.GreenRole(id) in artifacts && artifacts[N.GreenRole(id)] == GreenOf(e.tdds[i])
    {
      PhaseArtifacts(s, e, i, N.RedRole(e.tdds[i].acceptanceId));
      PhaseArtifacts(s, e, i, N.GreenRole(e.tdds[i].acceptanceId));
    }
  }

  lemma {:induction false} ReviewArtifactsIn(s: Submission, e: Effective)
    requires ExactlyCovered(s.task, e) && PanelPresent(s.reviews)
    ensures ReviewsIn(ArtifactsByRole(s, e), s.reviews)
  {
    var artifacts := ArtifactsByRole(s, e);
    forall i | 0 <= i < |s.reviews|
      ensures artifacts[RoleNameOf(s.reviews[i].role)] == ReviewArtifact(s.reviews[i])
    {
      ByKeyAt(s.reviews, ReviewerRoleOf, i);
    }
  }

  /** The RED and the GREEN expectation of one record, added to those of other roles. */
  function ExpectPhases(
    s: Submission, runs: map<N.RoleName, RunBinding>, artifacts: map<N.RoleName, Artifact>, tdd: Tdd,
    found: map<N.RoleName, N.Binding>, ghost roles: set<N.RoleName>): (more: map<N.RoleName, N.Binding>)
    requires roles <= runs.Keys && roles <= artifacts.Keys
    requires found == Expectations(s, runs, artifacts, roles)
    requires TddRequestsMet(s, runs, tdd) && TddsIn(artifacts, [tdd])
    ensures var both := {N.RedRole(tdd.acceptanceId), N.GreenRole(tdd.acceptanceId)};
            && both <= runs.Keys && both <= artifacts.Keys
            && more == Expectations(s, runs, artifacts, roles + both)
  {
    var red, green := N.RedRole(tdd.acceptanceId), N.GreenRole(tdd.acceptanceId);
    assert [tdd][0] == tdd;
    assert artifacts[red] == RedOf(tdd) && artifacts[green] == GreenOf(tdd);
    found[red := Expected(s, runs[red], RedOf(tdd))][green := Expected(s, runs[green], GreenOf(tdd))]
  }

  lemma {:induction false} PhaseRequestsAppend(
    s: Submission, runs: map<N.RoleName, RunBinding>, tdds: seq<Tdd>, i: nat)
    requires i < |tdds| && PhaseRequestsMet(s, runs, tdds[..i])
    ensures PhaseRequestsMet(s, runs, tdds[..i + 1]) <==> TddRequestsMet(s, runs, tdds[i])
    ensures PhaseRequestsMet(s, runs, tdds) ==> TddRequestsMet(s, runs, tdds[i])
  {
    assert tdds[..i + 1] == tdds[..i] + [tdds[i]];
    assert tdds[..i + 1][i] == tdds[i];
  }

  method ExpectTdds(
    s: Submission, runs: map<N.RoleName, RunBinding>, artifacts: map<N.RoleName, Artifact>, tdds: seq<Tdd>)
    returns (made: Option<map<N.RoleName, N.Binding>>)
    requires TddsIn(artifacts, tdds)
    ensures made.Some? <==> PhaseRequestsMet(s, runs, tdds)
    ensures made.Some? ==>
              && TddRoles(tdds) <= runs.Keys && TddRoles(tdds) <= artifacts.Keys
              && made.value == Expectations(s, runs, artifacts, TddRoles(tdds))
  {
    var found: map<N.RoleName, N.Binding> := map[];
    for i := 0 to |tdds|
      invariant PhaseRequestsMet(s, runs, tdds[..i])
      invariant TddRoles(tdds[..i]) <= runs.Keys && TddRoles(tdds[..i]) <= artifacts.Keys
      invariant found == Expectations(s, runs, artifacts, TddRoles(tdds[..i]))
    {
      PhaseRequestsAppend(s, runs, tdds, i);
      if !TddRequestsMet(s, runs, tdds[i]) {
        return None;
      }
      assert TddsIn(artifacts, [tdds[i]]);
      found := ExpectPhases(s, runs, artifacts, tdds[i], found, TddRoles(tdds[..i]));
      TddRolesAppend(tdds, i);
    }
    assert tdds[..|tdds|] == tdds;
    return Some(found);
  }

  function TddRoles(tdds: seq<Tdd>): set<N.RoleName> {
    (set i | 0 <= i < |tdds| :: N.RedRole(tdds[i].acceptanceId))
    + (set i | 0 <= i < |tdds| :: N.GreenRole(tdds[i].acceptanceId))
  }

  lemma {:induction false} TddRolesAppend(tdds: seq<Tdd>, i: nat)
    requires i < |tdds|
    ensures TddRoles(tdds[..i + 1])
         == TddRoles(tdds[..i]) + {N.RedRole(tdds[i].acceptanceId), N.GreenRole(tdds[i].acceptanceId)}
  {
    var a, b := tdds[..i], tdds[..i + 1];
    forall k | 0 <= k < |a|
      ensures N.RedRole(a[k].acceptanceId) in TddRoles(b) && N.GreenRole(a[k].acceptanceId) in TddRoles(b)
    {
      assert b[k] == a[k];
    }
    assert b[i] == tdds[i];
    forall k | 0 <= k < |b| ensures k == i || b[k] == a[k] {
    }
  }

  function ReviewRoleNames(reviews: seq<Review>): set<N.RoleName> {
    set i | 0 <= i < |reviews| :: RoleNameOf(reviews[i].role)
  }

  lemma {:induction false} ReviewRequestsAppend(
    s: Submission, runs: map<N.RoleName, RunBinding>, reviews: seq<Review>, i: nat)
    requires i < |reviews| && ReviewRequestsMet(s, runs, reviews[..i])
    ensures ReviewRequestsMet(s, runs, reviews[..i + 1]) <==> ReviewRequestMet(s, runs, reviews[i])
    ensures ReviewRequestsMet(s, runs, reviews) ==> ReviewRequestMet(s, runs, reviews[i])
  {
    assert reviews[..i + 1] == reviews[..i] + [reviews[i]];
    assert reviews[..i + 1][i] == reviews[i];
  }

  lemma {:induction false} ReviewRolesAppend(reviews: seq<Review>, i: nat)
    requires i < |reviews|
    ensures ReviewRoleNames(reviews[..i + 1]) == ReviewRoleNames(reviews[..i]) + {RoleNameOf(reviews[i].role)}
  {
    var a, b := reviews[..i], reviews[..i + 1];
    forall k | 0 <= k < |a| ensures RoleNameOf(a[k].role) in ReviewRoleNames(b) {
      assert b[k] == a[k];
    }
    assert b[i] == reviews[i];
    forall k | 0 <= k < |b| ensures k == i || b[k] == a[k] {
    }
  }

  method ExpectReviews(
    s: Submission, runs: map<N.RoleName, RunBinding>, artifacts: map<N.RoleName, Artifact>, reviews: seq<Review>)
    returns (made: Option<map<N.RoleName, N.Binding>>)
    requires ReviewsIn(artifacts, reviews)
    ensures made.Some? <==> ReviewRequestsMet(s, runs, reviews)
    ensures made.Some? ==>
              && ReviewRoleNames(reviews) <= runs.Keys && ReviewRoleNames(reviews) <= artifacts.Keys
              && made.value == Expectations(s, runs, artifacts, ReviewRoleNames(reviews))
  {
    var found: map<N.RoleName, N.Binding> := map[];
    for i := 0 to |reviews|
      invariant ReviewRequestsMet(s, runs, reviews[..i])
      invariant ReviewRoleNames(reviews[..i]) <= runs.Keys && ReviewRoleNames(reviews[..i]) <= artifacts.Keys
      invariant found == Expectations(s, runs, artifacts, ReviewRoleNames(reviews[..i]))
    {
      ReviewRequestsAppend(s, runs, reviews, i);
      if !ReviewRequestMet(s, runs, reviews[i]) {
        return None;
      }
      found := ExpectOne(s, runs, artifacts, RoleNameOf(reviews[i].role), found, ReviewRoleNames(reviews[..i]));
      ReviewRolesAppend(reviews, i);
    }
    assert reviews[..|reviews|] == reviews;
    return Some(found);
  }

  function GateRoleNames(gates: seq<Gate>): set<N.RoleName> {
    set i | 0 <= i < |gates| :: N.GateRole(gates[i].acceptanceId)
  }

  lemma {:induction false} GateRolesCover(task: Task, gates: seq<Gate>)
    requires UniqueKeys(gates, GateId) && ByKey(gates, GateId).Keys == AcceptanceIds(task)
    ensures GateRoleNames(gates) == set id | id in AcceptanceIds(task) :: N.GateRole(id)
  {
    forall i | 0 <= i < |gates| ensures gates[i].acceptanceId in AcceptanceIds(task) {
      assert gates[i] in gates;
      assert GateId(gates[i]) in ByKey(gates, GateId).Keys;
    }
    forall id | id in AcceptanceIds(task) ensures N.GateRole(id) in GateRoleNames(gates) {
      assert id in ByKey(gates, GateId).Keys;
      var g :| g in gates && GateId(g) == id;
      var i :| 0 <= i < |gates| && gates[i] == g;
    }
  }

  lemma {:induction false} TddIdsCover(task: Task, tdds: seq<Tdd>)
    requires UniqueKeys(tdds, TddId) && ByKey(tdds, TddId).Keys == TestIds(task)
    ensures forall i :: 0 <= i < |tdds| ==> tdds[i].acceptanceId in TestIds(task)
    ensures forall id :: id in TestIds(task) ==> exists i :: 0 <= i < |tdds| && tdds[i].acceptanceId == id
  {
    forall i | 0 <= i < |tdds| ensures tdds[i].acceptanceId in TestIds(task) {
      assert tdds[i] in tdds;
      assert TddId(tdds[i]) in ByKey(tdds, TddId).Keys;
    }
    forall id | id in TestIds(task) ensures exists i :: 0 <= i < |tdds| && tdds[i].acceptanceId == id {
      assert id in ByKey(tdds, TddId).Keys;
      var t :| t in tdds && TddId(t) == id;
      var i :| 0 <= i < |tdds| && tdds[i] == t;
    }
  }

  lemma {:induction false} TddRolesCover(task: Task, tdds: seq<Tdd>)
    requires UniqueKeys(tdds, TddId) && ByKey(tdds, TddId).Keys == TestIds(task)
    ensures TddRoles(tdds) == (set id | id in TestIds(task) :: N.RedRole(id))
                            + (set id | id in TestIds(task) :: N.GreenRole(id))
  {
    TddIdsCover(task, tdds);
    forall id | id in TestIds(task)
      ensures N.RedRole(id) in TddRoles(tdds) && N.GreenRole(id) in TddRoles(tdds)
    {
      var i :| 0 <= i < |tdds| && tdds[i].acceptanceId == id;
    }
  }

  function RoleCode(reviews: seq<Review>, k: nat): int {
    if k < |reviews| then (if reviews[k].role.Reviewer? then 0 else 1) else 2 + k
  }

  lemma {:induction false} TwoReviews(reviews: seq<Review>)
    requires PanelPresent(reviews)
    ensures |reviews| == 2 && reviews[0].role != reviews[1].role
  {
    assert Reviewer in ByKey(reviews, ReviewerRoleOf).Keys && Adversary in ByKey(reviews, ReviewerRoleOf).Keys;
    var r :| r in reviews && r.role == Reviewer;
    var a :| a in reviews && a.role == Adversary;
    assert forall i, j :: 0 <= i < j < |reviews| ==> ReviewerRoleOf(reviews[i]) != ReviewerRoleOf(reviews[j]);
    assert RoleCode(reviews, 0) != RoleCode(reviews, 1) && RoleCode(reviews, 0) != RoleCode(reviews, 2);
    assert RoleCode(reviews, 1) != RoleCode(reviews, 2);
  }

  lemma {:induction false} ReviewRolesCover(reviews: seq<Review>)
    requires PanelPresent(reviews)
    ensures ReviewRoleNames(reviews) == ReviewRoles()
  {
    TwoReviews(reviews);
    assert RoleNameOf(reviews[0].role) in ReviewRoleNames(reviews);
    assert RoleNameOf(reviews[1].role) in ReviewRoleNames(reviews);
  }

  /** Every role the TaskSpec demands, and no other, gets an expectation. */
  lemma {:induction false} RolesCovered(s: Submission, e: Effective)
    requires ExactlyCovered(s.task, e) && PanelPresent(s.reviews)
    ensures {N.TaskRole, N.PolicyRole} + GateRoleNames(e.gates) + TddRoles(e.tdds) + ReviewRoleNames(s.reviews)
         == ExpectedRoles(s.task)
  {
    GateRolesCover(s.task, e.gates);
    TddRolesCover(s.task, e.tdds);
    ReviewRolesCover(s.reviews);
  }

  /** What every signed statement must carry, for exactly the roles of the TaskSpec. */
  function ExpectationsOf(s: Submission): (expectations: map<N.RoleName, N.Binding>)
    requires Buildable(s)
    ensures expectations.Keys == ExpectedRoles(s.task)
  {
    var e := EffectiveOf(s).value;
    Expectations(s, ByKey(e.bindings, RoleOf), ArtifactsByRole(s, e), ExpectedRoles(s.task))
  }

  lemma {:induction false} ExpectationsUnion(
    s: Submission, runs: map<N.RoleName, RunBinding>, artifacts: map<N.RoleName, Artifact>,
    a: set<N.RoleName>, b: set<N.RoleName>, c: set<N.RoleName>, d: set<N.RoleName>)
    requires a + b + c + d <= runs.Keys && a + b + c + d <= artifacts.Keys
    ensures Expectations(s, runs, artifacts, a) + Expectations(s, runs, artifacts, b)
              + Expectations(s, runs, artifacts, c) + Expectations(s, runs, artifacts, d)
         == Expectations(s, runs, artifacts, a + b + c + d)
  {
  }

  /** Every role has its run and stands for its own artifact. */
  predicate Ready(
    s: Submission, e: Effective, runs: map<N.RoleName, RunBinding>, artifacts: map<N.RoleName, Artifact>)
  {
    && runs.Keys == ExpectedRoles(s.task) == artifacts.Keys
    && GatesIn(artifacts, e.gates) && TddsIn(artifacts, e.tdds) && ReviewsIn(artifacts, s.reviews)
    && artifacts[N.TaskRole] == TaskArtifact(s.task) && artifacts[N.PolicyRole] == PolicyArtifact(s.policy)
  }

  lemma {:induction false} ArtifactsReady(s: Submission, e: Effective)
    requires ExactlyCovered(s.task, e) && RunsCovered(s.task, e.bindings) && PanelPresent(s.reviews)
    ensures Ready(s, e, ByKey(e.bindings, RoleOf), ArtifactsByRole(s, e))
  {
    GateArtifactsIn(s, e);
    TddArtifactsIn(s, e);
    ReviewArtifactsIn(s, e);
  }

  lemma {:induction false} PlainExpectations(
    s: Submission, runs: map<N.RoleName, RunBinding>, artifacts: map<N.RoleName, Artifact>)
    requires N.TaskRole in runs && N.PolicyRole in runs && N.TaskRole in artifacts && N.PolicyRole in artifacts
    ensures Expectations(s, runs, artifacts, {N.TaskRole, N.PolicyRole})
         == map[N.TaskRole := Expected(s, runs[N.TaskRole], artifacts[N.TaskRole]),
                N.PolicyRole := Expected(s, runs[N.PolicyRole], artifacts[N.PolicyRole])]
  {
  }

  method CollectExpectations(
    s: Submission, e: Effective, runs: map<N.RoleName, RunBinding>, artifacts: map<N.RoleName, Artifact>)
    returns (made: Option<map<N.RoleName, N.Binding>>)
    requires ExactlyCovered(s.task, e) && PanelPresent(s.reviews) && Ready(s, e, runs, artifacts)
    ensures made.Some? <==> AllRequestsMet(s, e, runs)
    ensures made.Some? ==> made.value == Expectations(s, runs, artifacts, ExpectedRoles(s.task))
  {
    if !PlainRequestsMet(s, runs) { return None; }
    var plain := map[N.TaskRole := Expected(s, runs[N.TaskRole], TaskArtifact(s.task)),
                     N.PolicyRole := Expected(s, runs[N.PolicyRole], PolicyArtifact(s.policy))];
    var gates := ExpectGates(s, runs, artifacts, e.gates);
    if gates.None? { return None; }
    var tdds := ExpectTdds(s, runs, artifacts, e.tdds);
    if tdds.None? { return None; }
    var reviews := ExpectReviews(s, runs, artifacts, s.reviews);
    if reviews.None? { return None; }
    PlainExpectations(s, runs, artifacts);
    RolesCovered(s, e);
    ExpectationsUnion(s, runs, artifacts, {N.TaskRole, N.PolicyRole}, GateRoleNames(e.gates), TddRoles(e.tdds),
                      ReviewRoleNames(s.reviews));
    return Some(plain + gates.value + tdds.value + reviews.value);
  }

  /** Reconstructs every expected signed field, or refuses the submission. */
  method BuildExpectations(s: Submission) returns (made: Option<map<N.RoleName, N.Binding>>)
    requires Consistent(s)
    ensures made.Some? <==> Buildable(s)
    ensures made.Some? ==> made.value == ExpectationsOf(s)
  {
    if !s.task.version2 { return None; }
    var e := UseRawEvidence(s);
    if e.None? { return None; }
    var covered := Covers(s, e.value);
    if !covered || !s.packetValid || !s.brokerEvidenceValid { return None; }
    var bound := CheckSnapshots(s.task, e.value.tdds, s.context);
    if !bound { return None; }
    ArtifactsReady(s, e.value);
    made := CollectExpectations(s, e.value, ByKey(e.value.bindings, RoleOf), ArtifactsByRole(s, e.value));
  }
}
