/**
 What every attested run was asked to do: the trusted request behind a run binding, what it must say of
 the artifact its role stands for, and the fields a statement about it signs.
 */
module TrustedRequests {
  import opened Wrappers
  import opened Utf8
  import opened Manifest
  import opened Models
  import opened Derive
  import N = Nonces

  // ---------------------------------------------------------------- the signed artifacts

  /** What the two phases of a record have in common in the artifacts signed for them. */
  datatype PhasePayload = PhasePayload(
    version2: bool, taskId: string, taskSha: string, baseSha: string, acceptanceId: string,
    command: seq<string>, testPaths: seq<Text>, manifest: Sha, testPatch: string, snapshot: Option<string>)

  /** The payload a role's statement signs the digest of. */
  datatype Artifact =
    | TaskArtifact(task: Task)
    | PolicyArtifact(policy: PolicyReport)
    | GateArtifact(gate: Gate)
    | RedArtifact(payload: PhasePayload, red: Red)
    | GreenArtifact(payload: PhasePayload, headSha: string, patch: string, green: Green)
    | ReviewArtifact(review: Review)

  function PayloadOf(tdd: Tdd, snapshot: Option<string>): PhasePayload {
    PhasePayload(tdd.version2, tdd.taskId, tdd.taskSha, tdd.baseSha, tdd.acceptanceId, tdd.command,
                 tdd.testPaths, tdd.manifest, tdd.testPatch, snapshot)
  }

  /** Nothing of the GREEN phase is in it. */
  function RedOf(tdd: Tdd): Artifact {
    RedArtifact(PayloadOf(tdd, tdd.redSnapshot), tdd.red)
  }

  function GreenOf(tdd: Tdd): Artifact {
    GreenArtifact(PayloadOf(tdd, tdd.greenSnapshot), tdd.headSha, tdd.patch, tdd.green)
  }

  // ---------------------------------------------------------------- the bindings of the runs

  datatype Kind = TaskKind | PolicyKind | GateKind | RedKind | GreenKind | ReviewKind

  /** Which source a run was given, what it was told to do there, and on what input. */
  datatype Subject = Subject(
    taskSha: string, sourceSha: string, sourceSnapshot: string, candidate: Option<string>, snapshot: string,
    acceptanceId: Option<string>, command: seq<string>, testPatch: Option<string>, testManifest: Option<Sha>,
    prompt: Option<string>, input: string)

  /** The provider fields of a review request. */
  datatype ModelCall = ModelCall(provider: string, model: string, effort: string, attempt: int, role: ReviewRole)

  datatype TrustedRequest = TrustedRequest(kind: Kind, subject: Subject, model: Option<ModelCall>)

  /** A trusted run: what it was asked and by what it can be recognized. */
  datatype RunBinding = RunBinding(
    role: N.RoleName, kind: Kind, session: string, runner: string, argv: string, log: string,
    request: TrustedRequest, requestSha: string, response: string)

  /** What preflight and snapshot verification established. */
  datatype TrustedContext = TrustedContext(
    baseSnapshot: string, candidateSnapshot: string, reviewPacket: string, runtimeManifest: string,
    coordinatorImage: string, offlineImage: string, brokerImage: string)

  /** What requests are compared with. */
  datatype Ground = Ground(
    task: Task, policy: PolicyReport, taskSha: string, context: TrustedContext,
    requestDigest: TrustedRequest -> string)

  function KindOf(x: Artifact): Kind {
    match x
    case TaskArtifact(_) => TaskKind
    case PolicyArtifact(_) => PolicyKind
    case GateArtifact(_) => GateKind
    case RedArtifact(_, _) => RedKind
    case GreenArtifact(_, _, _, _) => GreenKind
    case ReviewArtifact(_) => ReviewKind
  }

  /** The snapshot the run of an artifact executed on; a phase may have recorded none. */
  function SnapshotOf(context: TrustedContext, x: Artifact): Option<string> {
    match x
    case TaskArtifact(_) => Some(context.baseSnapshot)
    case RedArtifact(payload, _) => payload.snapshot
    case GreenArtifact(payload, _, _, _) => payload.snapshot
    case _ => Some(context.candidateSnapshot)
  }

  function CommandOf(task: Task, id: string): seq<string> {
    match Find(task.acceptance, id)
    case Some(a) => a.command
    case None => []
  }

  /** What the request of an artifact's run must have said, given the snapshot it executed on. */
  function SubjectOf(g: Ground, x: Artifact, snapshot: string): Subject {
    var head, candidate := g.policy.headSha, g.context.candidateSnapshot;
    match x
    case TaskArtifact(_) =>
      Subject(g.taskSha, g.task.baseSha, g.context.baseSnapshot, None, snapshot, None, [], None, None, None,
              g.taskSha)
    case PolicyArtifact(_) =>
      Subject(g.taskSha, head, candidate, g.policy.patch, snapshot, None, [], None, None, None, candidate)
    case GateArtifact(gate) =>
      Subject(g.taskSha, head, candidate, g.policy.patch, snapshot, Some(gate.acceptanceId),
              CommandOf(g.task, gate.acceptanceId), None, None, None, candidate)
    case RedArtifact(p, _) =>
      Subject(g.taskSha, g.task.baseSha, g.context.baseSnapshot, g.policy.patch, snapshot, Some(p.acceptanceId),
              p.command, Some(p.testPatch), Some(p.manifest), None, snapshot)
    case GreenArtifact(p, _, _, _) =>
      Subject(g.taskSha, head, candidate, g.policy.patch, snapshot, Some(p.acceptanceId), p.command,
              Some(p.testPatch), Some(p.manifest), None, snapshot)
    case ReviewArtifact(review) =>
      Subject(g.taskSha, head, candidate, g.policy.patch, snapshot, None, [], None, None, Some(review.prompt),
              g.context.reviewPacket)
  }

  predicate ModelMet(model: Option<ModelCall>, role: ReviewRole) {
    && model.Some? && model.value.provider == "openai" && model.value.model == "gpt-5.6-sol"
    && model.value.effort == (if role.Reviewer? then "high" else "xhigh")
    && model.value.role == role && 1 <= model.value.attempt <= 2
  }

  /** What ties the run itself to the artifact: its log, its session and model, or its request's digest. */
  predicate EvidenceMet(g: Ground, b: RunBinding, x: Artifact) {
    match x
    case GateArtifact(gate) => b.log == gate.evidence
    case RedArtifact(_, red) => b.log == red.log
    case GreenArtifact(_, _, _, green) => b.log == green.log
    case ReviewArtifact(review) => b.session == review.sessionId && ModelMet(b.request.model, review.role)
    case _ => b.requestSha == g.requestDigest(b.request)
  }

  /** `_validate_request` and the checks beside it, for the run behind one artifact. */
  predicate Met(g: Ground, b: RunBinding, x: Artifact) {
    var snapshot := SnapshotOf(g.context, x);
    && b.kind == KindOf(x) == b.request.kind && snapshot.Some?
    && b.request.subject == SubjectOf(g, x, snapshot.value)
    && EvidenceMet(g, b, x)
  }

  // ---------------------------------------------------------------- what a statement signs

  function ImageOf(context: TrustedContext, x: Artifact): string {
    match KindOf(x)
    case TaskKind => context.coordinatorImage
    case PolicyKind => context.coordinatorImage
    case ReviewKind => context.brokerImage
    case _ => context.offlineImage
  }

  /** `_expectation`, but for the artifact's digest. */
  function SignedOf(g: Ground, b: RunBinding, x: Artifact): N.Signed {
    N.Signed(g.task.taskId, g.taskSha, g.task.baseSha, g.policy.headSha, g.policy.patch,
             SnapshotOf(g.context, x), g.context.runtimeManifest, ImageOf(g.context, x), b.runner, b.argv, b.log,
             b.requestSha, b.response)
  }

  // ---------------------------------------------------------------- derived runs

  /** What a raw offline run says of itself beside its request, exit code and log. */
  datatype Provenance = Provenance(session: string, runner: string, argv: string, requestSha: string, response: string)

  /** The role a run's phase and acceptance give it. */
  function PhaseRole(key: Key): N.RoleName {
    match key.phase
    case GatePhase => N.GateRole(key.acceptanceId)
    case RedPhase => N.RedRole(key.acceptanceId)
    case GreenPhase => N.GreenRole(key.acceptanceId)
  }

  function PhaseKind(phase: Phase): Kind {
    match phase
    case GatePhase => GateKind
    case RedPhase => RedKind
    case GreenPhase => GreenKind
  }

  /** `_trusted_binding_from_offline_run` */
  function BindingOf(run: OfflineRun, p: Provenance): RunBinding {
    var r := run.request;
    var kind := PhaseKind(r.key.phase);
    RunBinding(PhaseRole(r.key), kind, p.session, p.runner, p.argv, run.log,
               TrustedRequest(kind,
                              Subject(r.taskSha, r.sourceCommit, r.sourceSnapshot, Some(r.candidateSha),
                                      r.executionSnapshot, Some(r.key.acceptanceId), r.command, r.testPatch,
                                      r.testManifest, None, r.executionSnapshot),
                              None),
               p.requestSha, p.response)
  }

  /** What the verifier of a run checks of its request: the phase's own shape, and the snapshot executed. */
  predicate RequestShape(r: RunRequest, execution: string) {
    && r.executionSnapshot == execution
    && match r.key.phase
       case GatePhase =>
         && r.testPatch.None? && r.testManifest.None?
         && r.sourceSnapshot == r.candidateSnapshot == r.executionSnapshot
       case RedPhase =>
         && r.testPatch.Some? && r.testManifest.Some? && r.sourceSnapshot != r.candidateSnapshot
         && r.executionSnapshot != r.sourceSnapshot && r.executionSnapshot != r.candidateSnapshot
       case GreenPhase =>
         && r.testPatch.Some? && r.testManifest.Some?
         && r.sourceSnapshot == r.candidateSnapshot == r.executionSnapshot
  }

  /** The verifier returns the run it was given, remeasured, and only with a request of that shape. */
  ghost predicate Remeasures(verify: Verifiers) {
    forall run: OfflineRun, execution: string :: verify.run(run, execution).Some? ==>
      var measured := verify.run(run, execution).value;
      measured.request == run.request && RequestShape(run.request, execution)
  }
}
