/**
 The coordinator's own validator of a session's evidence, and exactly which sessions that exited
 normally it accepts.
 */
module LifecycleEvidence {
  import opened Wrappers
  import opened Utf8
  import opened Inspect
  import opened Lifecycle
  import opened Teardown
  import opened EgressSession
  import opened OuterEvidence
  import opened Revalidation

  const MAX_LIFECYCLE_MILLISECONDS := 600_000

  /** What the provisioning record binds: the session's names, its runtime and its ten commands. */
  datatype Provisioned = Provisioned(names: Names, backend: Backend, external: Bytes, commands: seq<Event>)

  datatype SessionRecord = SessionRecord(
    names: Names, before: Backend, after: Backend, boundary: Boundary, provisioned: Provisioned,
    provisioning: seq<Event>, post: seq<Event>, cleanup: seq<Event>, absence: seq<Event>,
    started: int, duration: int, succeeded: bool)

  /** The runtime as evidence records it, without its device and inode. */
  predicate SameRuntime(a: Backend, b: Backend) {
    a.(device := 0, inode := 0) == b.(device := 0, inode := 0)
  }

  // ---------------------------------------------------------------- the validator

  predicate ShapeHolds(n: Names, e: SessionRecord) {
    && e.names == n && e.succeeded
    && |e.provisioning| == 10 && |e.post| == 3 && |e.cleanup| == 6 && |e.absence| == 3
    && e.started > 0 && 0 <= e.duration <= MAX_LIFECYCLE_MILLISECONDS
    && AllHashable(e.provisioning) && AllHashable(e.post) && AllHashable(e.cleanup) && AllHashable(e.absence)
  }

  /** Applied to its own output, each validator returns it unchanged. */
  predicate BoundaryRevalidates(view: View, n: Names, b: Boundary) {
    BoundarySeen(view, n, b.internal, b.external, b.gateway) == Some(b)
  }

  predicate InspectionsRevalidate(view: View, n: Names, e: SessionRecord)
    requires |e.provisioning| == 10 && |e.post| == 3
  {
    && BoundarySeen(view, n, Output(e.provisioning[7].reply), Output(e.provisioning[8].reply),
                    Output(e.provisioning[9].reply)) == Some(e.boundary)
    && NetworksSeen(view, n, Output(e.post[0].reply), Output(e.post[1].reply)).Some?
    && view.gateway(Output(e.post[2].reply), false).Some?
  }

  predicate CommandsHold(backend: Backend, n: Names, e: SessionRecord)
    requires |e.provisioning| == 10
  {
    && Argvs(backend, e.provisioning) == ProvisionArgv(backend, n)
    && Argvs(backend, e.post) == PostArgv(backend, n)
    && Argvs(backend, e.cleanup) == CleanupArgv(backend, n)
    && Argvs(backend, e.absence) == PreflightArgv(backend, n)
    && ExitedZero(e.provisioning) && ExitedZero(e.post) && ExitedZero(e.cleanup) && ExitedZero(e.absence)
    && AllSilent(e.provisioning[..3]) && AllSilent(e.absence)
  }

  /** The removed gateway must still have had its whole shape; the networks only their labels. */
  predicate RemovalsRevalidate(view: View, n: Names, e: SessionRecord)
    requires |e.cleanup| == 6
  {
    && view.gateway(Output(e.cleanup[0].reply), false).Some?
    && view.owned(Output(e.cleanup[2].reply), n.InternalTarget())
    && view.owned(Output(e.cleanup[4].reply), n.ExternalTarget())
  }

  predicate StillAbsent(view: View, probes: seq<Reply>) {
    |probes| == 3 && forall i :: 0 <= i < 3 ==> Silent(view, probes[i])
  }

  /** `validate_broker_egress_lifecycle_evidence`: the runtime is measured and the absence probed again. */
  predicate ValidatorAccepts(
    view: View, n: Names, e: SessionRecord, current: Option<Backend>, probes: seq<Reply>)
  {
    && ShapeHolds(n, e)
    && current.Some? && SameRuntime(current.value, e.before) && SameRuntime(current.value, e.after)
    && BoundaryRevalidates(view, n, e.boundary)
    && InspectionsRevalidate(view, n, e)
    && e.provisioned == Provisioned(n, e.before, e.boundary.external, e.provisioning)
    && CommandsHold(current.value, n, e)
    && RemovalsRevalidate(view, n, e)
    && StillAbsent(view, probes)
  }

  // ---------------------------------------------------------------- what a session emits

  /** The evidence of a session that entered at `s0` and returned from its exit at `s1`. */
  ghost predicate SessionEmitted(
    view: View, n: Names, script: nat -> Reply, s0: nat, s1: nat, e: SessionRecord)
  {
    && e.names == n && e.before == e.after && e.succeeded
    && e.provisioning == Replay(script, s0, n.Provisioning())
    && Attested(view, n, script, s0) == Some(e.boundary)
    && e.provisioned == Provisioned(n, e.before, e.boundary.external, e.provisioning)
    && e.post == Replay(script, s1, n.Inspections())
    && e.cleanup == Replay(script, s1 + 3, n.Removals())
    && e.absence == Replay(script, s1 + 9, n.Preflight())
    && ExitAnswers(view, n, e.boundary, script, s1)
    && NoneMarked(e.provisioning) && NoneMarked(e.post) && NoneMarked(e.cleanup) && NoneMarked(e.absence)
  }

  /** The lifecycle evidence a clean exit keeps. */
  function EvidenceOf(session: Session, after: Backend, started: int, duration: int): SessionRecord
    requires session.backend.Some? && session.boundary.Some?
    reads session
  {
    var boundary := session.boundary.value;
    SessionRecord(
      session.names, session.backend.value, after, boundary,
      Provisioned(session.names, session.backend.value, boundary.external, session.provisioning),
      session.provisioning, session.post, session.cleanup, session.absence, started, duration, true)
  }

  /** A session that has provisioned at `s0` and owns what it provisioned. */
  ghost predicate Opened(session: Session, detected: Option<Backend>, s0: nat)
    reads session
  {
    && session.Valid() && session.entered && !session.closed
    && session.backend == detected && session.boundary.Some?
    && session.boundary == Attested(session.view, session.names, session.runtime.script, s0)
    && session.provisioning == Replay(session.runtime.script, s0, session.names.Provisioning())
    && session.post == [] && session.cleanup == [] && session.absence == []
  }

  /** Opens a session; whatever the caller then runs, it stays opened. */
  method OpenSession(
    view: View, n: Names, runtime: Runtime, detected: Option<Backend>, policyOk: bool, after: Option<Backend>)
    returns (found: Option<Session>)
    modifies runtime
    ensures old(runtime.trace) <= runtime.trace
    ensures found.Some? <==> detected.Some? && policyOk
                              && Attested(view, n, runtime.script, |old(runtime.trace)|).Some?
    ensures found.Some? ==>
              var session := found.value;
              && fresh(session) && session.view == view && session.names == n && session.runtime == runtime
              && Opened(session, detected, |old(runtime.trace)|)
              && runtime.trace == old(runtime.trace) + session.provisioning
  {
    var session := new Session(view, n, runtime);
    var entered, _ := session.Enter(detected, policyOk, after);
    return if entered == Active then Some(session) else None;
  }

  /** Closes an opened session; the evidence exists exactly when the exit returned. */
  method CloseSession(session: Session, after: Option<Backend>, started: int, duration: nat, ghost s0: nat)
    returns (evidence: Option<SessionRecord>)
    requires Opened(session, session.backend, s0)
    modifies session, session.runtime
    ensures old(session.runtime.trace) <= session.runtime.trace
    ensures evidence.Some? <==>
              && old(ExitAnswers(session.view, session.names, session.boundary.value, session.runtime.script,
                                 |session.runtime.trace|))
              && after == old(session.backend) && session.NoRecordMarked()
    ensures evidence.Some? ==>
              && SessionEmitted(session.view, session.names, session.runtime.script, s0,
                                |old(session.runtime.trace)|, evidence.value)
              && evidence.value.started == started && evidence.value.duration == duration
              && Some(evidence.value.before) == old(session.backend)
              && session.runtime.trace == old(session.runtime.trace)
                   + Replay(session.runtime.script, |old(session.runtime.trace)|, ExitCommands(session.names))
  {
    var exited := session.Exit(after);
    if exited != Returned {
      return None;
    }
    evidence := Some(EvidenceOf(session, after.value, started, duration));
  }

  // ---------------------------------------------------------------- session against validator

  lemma {:induction false} SucceededHashable(view: View, events: seq<Event>)
    requires AllSucceeded(view, events) && NoneMarked(events)
    ensures AllHashable(events) && ExitedZero(events)
  {
  }

  lemma {:induction false} RenderedReplay(
    backend: Backend, script: nat -> Reply, start: nat, commands: seq<Command>)
    ensures Argvs(backend, Replay(script, start, commands)) == Rendered(backend, commands)
  {
    ReplayCommands(script, start, commands);
    ArgvsRendered(backend, Replay(script, start, commands), commands);
  }

  lemma {:induction false} EmittedArgvs(
    backend: Backend, view: View, n: Names, script: nat -> Reply, s0: nat, s1: nat, e: SessionRecord)
    requires SessionEmitted(view, n, script, s0, s1, e)
    ensures Argvs(backend, e.provisioning) == ProvisionArgv(backend, n)
    ensures Argvs(backend, e.post) == PostArgv(backend, n)
    ensures Argvs(backend, e.cleanup) == CleanupArgv(backend, n)
    ensures Argvs(backend, e.absence) == PreflightArgv(backend, n)
  {
    BuildersAgree(backend, n);
    RenderedReplay(backend, script, s0, n.Provisioning());
    RenderedReplay(backend, script, s1, n.Inspections());
    RenderedReplay(backend, script, s1 + 3, n.Removals());
    RenderedReplay(backend, script, s1 + 9, n.Preflight());
  }

  /** Every record of an emitted session succeeded, and the absence probes were silent. */
  lemma {:induction false} EmittedSucceeded(
    view: View, n: Names, script: nat -> Reply, s0: nat, s1: nat, e: SessionRecord)
    requires SessionEmitted(view, n, script, s0, s1, e)
    ensures |e.provisioning| == 10 && |e.post| == 3 && |e.cleanup| == 6 && |e.absence| == 3
    ensures AllSucceeded(view, e.provisioning) && AllSucceeded(view, e.post)
    ensures AllSucceeded(view, e.cleanup) && AllSucceeded(view, e.absence)
    ensures AllSilent(e.provisioning[..3]) && AllSilent(e.absence)
    ensures RemovalsShown(view, n, e.cleanup)
  {
    RemovalAnswers(view, n, script, s1 + 3, e.cleanup);
    ProvisioningSucceeded(view, n, script, s0, e.provisioning);
    ThreeAnswered(view, script, s1, n.Inspections());
    ThreeAnswered(view, script, s1 + 9, n.Preflight());
  }

  lemma {:induction false} ThreeAnswered(view: View, script: nat -> Reply, start: nat, commands: seq<Command>)
    requires |commands| == 3 && ThreeSucceed(view, script, start)
    ensures AllSucceeded(view, Replay(script, start, commands))
    ensures ThreeSilent(view, script, start) ==> AllSilent(Replay(script, start, commands))
  {
  }

  lemma {:induction false} ProvisioningSucceeded(
    view: View, n: Names, script: nat -> Reply, start: nat, provisioning: seq<Event>)
    requires TenSucceed(view, script, start)
    requires provisioning == Replay(script, start, n.Provisioning())
    ensures |provisioning| == 10 && AllSucceeded(view, provisioning) && AllSilent(provisioning[..3])
  {
  }

  /** The boundary a session attested is what its last three provisioning records show. */
  lemma {:induction false} EmittedInspections(
    view: View, n: Names, script: nat -> Reply, s0: nat, s1: nat, e: SessionRecord)
    requires SessionEmitted(view, n, script, s0, s1, e)
    ensures |e.provisioning| == 10 && |e.post| == 3 && InspectionsRevalidate(view, n, e)
  {
    AttestedRecords(view, n, script, s0);
  }

  lemma {:induction false} BoundaryByParts(
    view: View, n: Names, internal: Bytes, external: Bytes, gateway: Bytes, b: Boundary)
    ensures BoundarySeen(view, n, internal, external, gateway) == Some(b)
       <==> && view.network(internal, n.InternalTarget(), true) == Some(b.internal)
            && view.network(external, n.ExternalTarget(), false) == Some(b.external)
            && view.gateway(gateway, true) == Some(b.gateway)
  {
  }

  /** The canonical boundary is accepted again exactly when it fits and no member order was needed. */
  lemma {:induction false} BoundaryRevalidatesIff(
    fold: Text -> Text, n: Names, internal: Bytes, external: Bytes, gateway: Bytes, b: Boundary)
    requires BoundarySeen(CheckerView(fold, n), n, internal, external, gateway) == Some(b)
    ensures BoundaryRevalidates(CheckerView(fold, n), n, b)
       <==> && InspectSize(b.internal) && InspectSize(b.external) && InspectSize(b.gateway)
            && MembersInKeyOrder(internal, n.gateway) && MembersInKeyOrder(external, n.gateway)
  {
    BoundaryByParts(CheckerView(fold, n), n, internal, external, gateway, b);
    BoundaryByParts(CheckerView(fold, n), n, b.internal, b.external, b.gateway, b);
    NetworkRevalidates(internal, n.InternalTarget(), true, n.gateway, n.labels);
    NetworkRevalidates(external, n.ExternalTarget(), false, n.gateway, n.labels);
    GatewayRevalidates(fold, gateway, n.Shape(), true);
  }

  /** What the validator asks beyond what a session that exited normally guarantees. */
  predicate ValidatorConditions(
    fold: Text -> Text, n: Names, e: SessionRecord, current: Option<Backend>, probes: seq<Reply>)
    requires |e.provisioning| == 10 && |e.cleanup| == 6
  {
    && e.started > 0 && 0 <= e.duration <= MAX_LIFECYCLE_MILLISECONDS
    && current.Some? && SameRuntime(current.value, e.before)
    && InspectSize(e.boundary.internal) && InspectSize(e.boundary.external) && InspectSize(e.boundary.gateway)
    && MembersInKeyOrder(Output(e.provisioning[7].reply), n.gateway)
    && MembersInKeyOrder(Output(e.provisioning[8].reply), n.gateway)
    && CheckerView(fold, n).gateway(Output(e.cleanup[0].reply), false).Some?
    && StillAbsent(CheckerView(fold, n), probes)
  }

  /**
   The validator accepts the evidence of a session that exited normally exactly when the time is in
   bounds, the runtime is still the same, the canonical inspections read back, the gateway still had
   its whole shape when it was removed, and all three names are still absent.
   */
  lemma {:induction false} SessionMeetsValidator(
    fold: Text -> Text, n: Names, script: nat -> Reply, s0: nat, s1: nat, e: SessionRecord,
    current: Option<Backend>, probes: seq<Reply>)
    requires SessionEmitted(CheckerView(fold, n), n, script, s0, s1, e)
    ensures |e.provisioning| == 10 && |e.cleanup| == 6
    ensures ValidatorAccepts(CheckerView(fold, n), n, e, current, probes)
       <==> ValidatorConditions(fold, n, e, current, probes)
  {
    var view := CheckerView(fold, n);
    EmittedSucceeded(view, n, script, s0, s1, e);
    SucceededHashable(view, e.provisioning);
    SucceededHashable(view, e.post);
    SucceededHashable(view, e.cleanup);
    SucceededHashable(view, e.absence);
    EmittedInspections(view, n, script, s0, s1, e);
    BoundaryRevalidatesIff(
      fold, n, Output(e.provisioning[7].reply), Output(e.provisioning[8].reply),
      Output(e.provisioning[9].reply), e.boundary);
    if current.Some? {
      EmittedArgvs(current.value, view, n, script, s0, s1, e);
    }
  }
}
