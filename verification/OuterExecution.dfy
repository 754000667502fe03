/**
 One run of the root-owned outer executor: provision, charge, launch, inspect again, clean up.

 The body may stop at any command; removal and absence checks run whatever happened before them.
 */
module OuterExecution {
  import opened Wrappers
  import opened Utf8
  import opened BrokerLedger
  import opened Inspect
  import opened Lifecycle
  import opened Teardown
  import opened EgressSession

  /** The prepared batch's bounds on the broker process. */
  datatype Limits = Limits(milliseconds: nat, maxStdout: nat, maxStderr: nat)

  predicate BrokerMeasured(limits: Limits, reply: Reply) {
    && reply.Finished?
    && |reply.stdout| <= limits.maxStdout
    && |reply.stderr| <= limits.maxStderr
    && reply.duration <= limits.milliseconds
  }

  /** The runtime as probed before or after the run. */
  datatype Measurement = Measurement(command: Event, backend: Backend)

  datatype Clock = Clock(started: int, brokerStarted: int, duration: nat)

  datatype RunEvidence = RunEvidence(
    names: Names, request: Request,
    provisioning: seq<Event>, broker: Event, brokerCleanup: Event, post: seq<Event>,
    cleanup: seq<Event>, absence: seq<Event>, reservation: OuterReservation,
    before: Measurement, after: Measurement, clock: Clock)

  /** The ledger transaction as the environment decides it. */
  datatype LedgerConditions = LedgerConditions(environment: Environment, now: int, measured: int)

  // ---------------------------------------------------------------- what success means

  ghost predicate Reserves(policy: Policy, rows: seq<Record>, request: Request, ledger: LedgerConditions) {
    ledger.environment.Healthy? && Admits(policy, rows, request, ledger.now)
  }

  /** The reservation payload a committed charge yields. */
  ghost predicate PayloadOf(
    identity: Identity, before: seq<Record>, after: seq<Record>, request: Request,
    ledger: LedgerConditions, payload: OuterReservation)
  {
    payload == OuterReservation(
      identity,
      Tokens(OfPacket(before, request.packet)) + request.tokens,
      Cost(OfPacket(before, request.packet)) + request.cost,
      ledger.measured, Select(after, request.packet), ledger.now)
  }

  ghost predicate CommitsCharge(policy: Policy, rows: seq<Record>, request: Request, ledger: LedgerConditions) {
    BrokerLedger.Commits(ledger.environment) && Admits(policy, rows, request, ledger.now)
  }

  /** The broker ran to a clean exit without echoing its credential, and its container was removed. */
  ghost predicate BrokerAnswers(view: View, limits: Limits, credential: Bytes, script: nat -> Reply, start: nat) {
    && BrokerMeasured(limits, script(start)) && Succeeded(view, script(start + 1))
    && script(start).exitCode == 0 && !Contains(script(start).stdout, credential)
  }

  /** Both inspections after the broker attest the boundary attested before it. */
  ghost predicate Unchanged(view: View, n: Names, boundary: Boundary, script: nat -> Reply, start: nat) {
    && ThreeSucceed(view, script, start)
    && BoundarySeen(view, n, Output(script(start)), Output(script(start + 1)), Output(script(start + 2)))
       == Some(boundary)
  }

  const MAX_PROBE_MILLISECONDS := 10_000

  predicate ProbeAnswers(view: View, reply: Reply) {
    Succeeded(view, reply) && reply.duration <= MAX_PROBE_MILLISECONDS
  }

  function BrokerCommands(launch: Launch): seq<Command> {
    [RunBroker(launch), RemoveBroker(launch.container)]
  }

  /** The fifteen answers from `start` that carry a run through its last inspection. */
  ghost predicate AttemptAnswers(
    view: View, n: Names, limits: Limits, credential: Bytes, script: nat -> Reply, start: nat)
  {
    && Attested(view, n, script, start).Some?
    && BrokerAnswers(view, limits, credential, script, start + 10)
    && Unchanged(view, n, Attested(view, n, script, start).value, script, start + 12)
  }

  /** The twenty-five answers from `start` that let a charged run produce evidence. */
  ghost predicate RunAnswers(
    view: View, n: Names, limits: Limits, credential: Bytes, script: nat -> Reply, start: nat)
  {
    && AttemptAnswers(view, n, limits, credential, script, start)
    && RemovedFirst(view, n, script, start + 15, 3)
    && ThreeSilent(view, script, start + 21)
    && ProbeAnswers(view, script(start + 24))
  }

  /** The evidence of a successful run: the script's answers to exactly the expected commands. */
  ghost predicate Emitted(
    e: RunEvidence, n: Names, launch: Launch, script: nat -> Reply, start: nat)
  {
    && e.names == n && e.request == launch.request
    && e.provisioning == Replay(script, start, n.Provisioning())
    && [e.broker, e.brokerCleanup] == Replay(script, start + 10, BrokerCommands(launch))
    && e.post == Replay(script, start + 12, n.Inspections())
    && e.cleanup == Replay(script, start + 15, n.Removals())
    && e.absence == Replay(script, start + 21, n.Preflight())
    && e.after.command == Event(Probe, script(start + 24))
  }

  /** One launch, possibly followed by the removal of its container. */
  ghost predicate LaunchTail(launch: Launch, tail: seq<Event>) {
    && 1 <= |tail| <= 2 && tail[0].command == RunBroker(launch)
    && (|tail| == 2 ==> tail[1].command == RemoveBroker(launch.container))
  }

  /** Every broker container launched from `from` on was later told to be removed. */
  ghost predicate LaunchesRemoved(trace: seq<Event>, from: nat) {
    forall i :: from <= i < |trace| && trace[i].command.RunBroker? ==>
      RemovalIssued(trace, i + 1, trace[i].command.launch.container)
  }

  ghost predicate RemovalIssued(trace: seq<Event>, from: nat, container: Text) {
    exists j :: from <= j < |trace| && trace[j].command == RemoveBroker(container)
  }

  ghost predicate LaunchesOnly(trace: seq<Event>, from: nat, launch: Launch) {
    forall i :: from <= i < |trace| && trace[i].command.RunBroker? ==> trace[i].command.launch == launch
  }

  /** Nothing launched since `from` is still running, or it is this launch and its removal is pending. */
  ghost predicate LaunchSettled(trace: seq<Event>, from: nat, launch: Launch, pending: bool) {
    LaunchesOnly(trace, from, launch) && (pending || LaunchesRemoved(trace, from))
  }

  lemma {:induction false} SettledExtend(
    before: seq<Event>, after: seq<Event>, from: nat, launch: Launch, pending: bool)
    requires from <= |before| && before <= after && NoLaunches(after, |before|)
    requires LaunchSettled(before, from, launch, pending)
    ensures LaunchSettled(after, from, launch, pending)
    ensures RemovalIssued(after, |before|, launch.container) ==> LaunchesRemoved(after, from)
  {
    forall i | from <= i < |after| && after[i].command.RunBroker?
      ensures after[i].command.launch == launch
      ensures !pending || RemovalIssued(after, |before|, launch.container) ==>
                RemovalIssued(after, i + 1, launch.container)
    {
      assert i < |before| && after[i] == before[i];
      if RemovalIssued(after, |before|, launch.container) {
        var j :| |before| <= j < |after| && after[j].command == RemoveBroker(launch.container);
        assert i + 1 <= j;
      } else if !pending {
        var j :| i + 1 <= j < |before| && before[j].command == RemoveBroker(launch.container);
        assert after[j] == before[j];
      }
    }
  }

  lemma {:induction false} SettledLater(
    before: seq<Event>, after: seq<Event>, from: nat, launch: Launch, pending: bool)
    requires from <= |before| && before <= after && NoLaunches(before, from)
    requires LaunchSettled(after, |before|, launch, pending)
    ensures LaunchSettled(after, from, launch, pending)
  {
    assert forall i :: from <= i < |before| ==> after[i] == before[i];
  }

  // ---------------------------------------------------------------- the finally block

  /** Where the finally block began, and whether a container's removal was pending then. */
  datatype Finishing = Finishing(mid: nat, pending: bool)
  {
    /** The container's removal, attempted once more. */
    function Removal(container: Text, script: nat -> Reply): seq<Event> {
      if pending then [Event(RemoveBroker(container), script(mid))] else []
    }

    function Start(): nat {
      mid + if pending then 1 else 0
    }

    /** A container whose removal is pending is removed first; then everything that may exist. */
    function Events(view: View, container: Text, script: nat -> Reply, targets: seq<Target>): seq<Event> {
      Removal(container, script) + TeardownEvents(view, script, Start(), targets)
    }

    ghost predicate Ok(view: View, script: nat -> Reply, targets: seq<Target>) {
      (pending ==> Succeeded(view, script(mid))) && TeardownOk(view, script, Start(), targets)
    }

    /** What the whole block did, and what it answered. */
    ghost predicate Done(
      view: View, container: Text, script: nat -> Reply, targets: seq<Target>, before: seq<Event>,
      after: seq<Event>, ok: bool, cleanup: seq<Event>, absence: seq<Event>)
    {
      && mid == |before| && after == before + Events(view, container, script, targets)
      && (ok <==> Ok(view, script, targets))
      && (ok ==> TeardownKept(view, script, Start(), targets, cleanup, absence))
    }

    lemma {:induction false} Combine(
      view: View, container: Text, script: nat -> Reply, targets: seq<Target>, before: seq<Event>,
      removed: bool, torn: bool, cleanup: seq<Event>, absence: seq<Event>)
      requires mid == |before|
      requires removed <==> pending ==> Succeeded(view, script(mid))
      requires torn <==> TeardownOk(view, script, Start(), targets)
      requires torn ==> TeardownKept(view, script, Start(), targets, cleanup, absence)
      ensures var after := before + Removal(container, script) + TeardownEvents(view, script, Start(), targets);
              Done(view, container, script, targets, before, after, removed && torn, cleanup, absence)
    {
      Rejoin(before, Removal(container, script), TeardownEvents(view, script, Start(), targets));
    }
  }

  /** How a run ends: with evidence, with a clean-up that could not be attested, or with another error. */
  datatype RunOutcome = Completed(evidence: RunEvidence) | CleanupUnattested | RunFailed

  /** The records a run keeps until it ends. */
  datatype RunLog = RunLog(
    provisioning: seq<Event>, broker: Option<Event>, brokerCleanup: Option<Event>, post: seq<Event>,
    reservation: Option<OuterReservation>)

  /** What a run was prepared with. */
  datatype RunPlan = RunPlan(
    view: View, names: Names, policy: Policy, launch: Launch, limits: Limits, credential: Bytes)
  {
    /** What one run does to the table and to the launches. */
    ghost predicate Charged(
      script: nat -> Reply, before: seq<Event>, after: seq<Event>, rows: seq<Record>, later: seq<Record>,
      ledger: LedgerConditions)
    {
      var attested := Attested(view, names, script, |before|).Some?;
      && later == rows
           + (if attested && CommitsCharge(policy, rows, launch.request, ledger)
              then [Charge(launch.request, ledger.now)] else [])
      && LaunchesIn(after) == LaunchesIn(before)
           + (if attested && Reserves(policy, rows, launch.request, ledger) then [launch] else [])
    }

    /** The charge commits and the fifteen answers from `start` carry the run to its end. */
    ghost predicate Succeeds(script: nat -> Reply, start: nat, rows: seq<Record>, ledger: LedgerConditions) {
      && Reserves(policy, rows, launch.request, ledger)
      && AttemptAnswers(view, names, limits, credential, script, start)
    }

    /** The records are the script's answers from `start`. */
    ghost predicate Recorded(log: RunLog, script: nat -> Reply, start: nat) {
      && log.broker.Some? && log.brokerCleanup.Some? && log.reservation.Some?
      && log.provisioning == Replay(script, start, names.Provisioning())
      && [log.broker.value, log.brokerCleanup.value] == Replay(script, start + 10, BrokerCommands(launch))
      && log.post == Replay(script, start + 12, names.Inspections())
    }

    /** What holds whenever the finally block begins. */
    ghost predicate Interrupted(created: Created, before: seq<Event>, middle: seq<Event>, pending: bool) {
      && before <= middle && NoRemovals(middle, |before|)
      && Covered(middle, |before|, created, names)
      && LaunchSettled(middle, |before|, launch, pending)
    }

    /** The finally block issued everything it owes, and what it left of the run is nothing. */
    ghost predicate Finished(
      script: nat -> Reply, created: Created, before: seq<Event>, after: seq<Event>, last: Finishing)
    {
      && |before| <= last.mid <= |after| && before <= after
      && last.Events(view, launch.container, script, created.Of(names)) <= after[last.mid..]
      && OwnedRemovals(after, |before|, view)
      && NothingLeft(after, |before|, view) && LaunchesRemoved(after, |before|)
    }

    /** A teardown of everything that may exist leaves nothing of the run unattended. */
    lemma {:induction false} TeardownClears(
      script: nat -> Reply, created: Created, from: nat, before: seq<Event>)
      requires from <= |before| && NoRemovals(before, from) && Covered(before, from, created, names)
      ensures var after := before + TeardownEvents(view, script, |before|, created.Of(names));
              && OwnedRemovals(after, from, view) && NothingLeft(after, from, view)
              && NoLaunches(after, |before|)
    {
      var after := before + TeardownEvents(view, script, |before|, created.Of(names));
      TakenDown(view, names, script, before, from, created);
      TeardownIsOwned(view, script, |before|, created.Of(names), before);
      OwnedRemovalsExtend(before, after, from, view);
    }

    /** Telling a pending container to go neither creates, removes nor launches anything. */
    lemma {:induction false} Retried(
      script: nat -> Reply, created: Created, from: nat, middle: seq<Event>, pending: bool)
      requires from <= |middle| && NoRemovals(middle, from) && Covered(middle, from, created, names)
      ensures var last := Finishing(|middle|, pending);
              var retried := middle + last.Removal(launch.container, script);
              && |retried| == last.Start() && NoLaunches(retried, |middle|)
              && NoRemovals(retried, from) && Covered(retried, from, created, names)
    {
      var retried := middle + Finishing(|middle|, pending).Removal(launch.container, script);
      CoveredExtend(middle, retried, from, created, created, names);
    }

    /** Whatever the finally block finds, it takes down everything that may exist. */
    lemma {:induction false} FinishFacts(
      script: nat -> Reply, created: Created, before: seq<Event>, middle: seq<Event>, pending: bool)
      requires Interrupted(created, before, middle, pending)
      ensures var last := Finishing(|middle|, pending);
              var after := middle + last.Events(view, launch.container, script, created.Of(names));
              && Finished(script, created, before, after, last)
              && LaunchesIn(after) == LaunchesIn(middle)
    {
      var last := Finishing(|middle|, pending);
      var removal := last.Removal(launch.container, script);
      var retried := middle + removal;
      Retried(script, created, |before|, middle, pending);
      TeardownClears(script, created, |before|, retried);
      Rejoin(middle, removal, TeardownEvents(view, script, last.Start(), created.Of(names)));
      var after := middle + last.Events(view, launch.container, script, created.Of(names));
      SettledExtend(middle, after, |before|, launch, pending);
      if pending {
        assert after[|middle|].command == RemoveBroker(launch.container);
      }
      LaunchesUnchanged(middle, after);
    }

    lemma {:induction false} FinishedExtend(
      script: nat -> Reply, created: Created, before: seq<Event>, finished: seq<Event>, last: Finishing,
      probe: Event)
      requires Finished(script, created, before, finished, last) && probe.command == Probe
      ensures Finished(script, created, before, finished + [probe], last)
    {
      var after := finished + [probe];
      OwnedRemovalsExtend(finished, after, |before|, view);
      NothingLeftExtend(finished, after, |before|, view);
      RemovedLater(finished, after, |before|);
      assert finished[last.mid..] <= after[last.mid..];
    }

    /** With all three resources and no container pending, a clean end is nine more answers. */
    lemma {:induction false} CleanEnd(script: nat -> Reply, start: nat, created: Created, last: Finishing)
      requires created.All() && last == Finishing(start + 15, false)
      ensures var targets := created.Of(names);
              && (last.Ok(view, script, targets)
                  <==> RemovedFirst(view, names, script, start + 15, 3)
                       && ThreeSilent(view, script, start + 21))
              && (last.Ok(view, script, targets) ==>
                    && CleanEvents(view, script, start + 15, targets) == Replay(script, start + 15, names.Removals())
                    && Absences(targets) == names.Preflight()
                    && |last.Events(view, launch.container, script, targets)| == 9)
    {
      CreatedTargets(created, names);
      TeardownOfAll(view, names, script, start + 15);
      AllAbsences(names);
    }

    /** How an attempt that was cleaned up ended. */
    ghost predicate Ended(
      script: nat -> Reply, created: Created, before: seq<Event>, after: seq<Event>, rows: seq<Record>,
      ledger: LedgerConditions, last: Finishing, cleaned: bool, ok: bool)
    {
      && Finished(script, created, before, after, last)
      && (cleaned <==> last.Ok(view, script, created.Of(names)))
      && (ok ==> cleaned && |after| == |before| + 24)
      && (ok <==>
            && Succeeds(script, |before|, rows, ledger)
            && RemovedFirst(view, names, script, |before| + 15, 3)
            && ThreeSilent(view, script, |before| + 21))
    }

    lemma {:induction false} Ends(
      script: nat -> Reply, created: Created, before: seq<Event>, middle: seq<Event>, after: seq<Event>,
      rows: seq<Record>, ledger: LedgerConditions, last: Finishing, attempted: bool, cleaned: bool,
      cleanup: seq<Event>, absence: seq<Event>)
      requires Interrupted(created, before, middle, last.pending)
      requires attempted <==> Succeeds(script, |before|, rows, ledger)
      requires attempted ==> !last.pending && created.All() && |middle| == |before| + 15
      requires last.Done(view, launch.container, script, created.Of(names), middle, after, cleaned, cleanup, absence)
      ensures Ended(script, created, before, after, rows, ledger, last, cleaned, attempted && cleaned)
      ensures LaunchesIn(after) == LaunchesIn(middle)
      ensures attempted && cleaned ==>
                && cleanup == Replay(script, |before| + 15, names.Removals())
                && absence == Replay(script, |before| + 21, names.Preflight())
    {
      FinishFacts(script, created, before, middle, last.pending);
      if attempted {
        CleanEnd(script, |before|, created, last);
      }
    }

    /** A cleaned-up success is decided by the last probe. */
    lemma {:induction false} Concludes(
      script: nat -> Reply, created: Created, before: seq<Event>, finished: seq<Event>, rows: seq<Record>,
      ledger: LedgerConditions, last: Finishing, cleaned: bool, ok: bool)
      requires Ended(script, created, before, finished, rows, ledger, last, cleaned, ok)
      ensures var probe := Event(Probe, script(|finished|));
              var after := if ok then finished + [probe] else finished;
              && Finished(script, created, before, after, last)
              && LaunchesIn(after) == LaunchesIn(finished)
              && (ok && ProbeAnswers(view, probe.reply)
                  <==> && Reserves(policy, rows, launch.request, ledger)
                       && RunAnswers(view, names, limits, credential, script, |before|))
    {
      if ok {
        var probe := Event(Probe, script(|finished|));
        FinishedExtend(script, created, before, finished, last, probe);
        LaunchAppend(finished, probe);
      }
    }
  }

  lemma {:induction false} LaunchTailCounts(before: seq<Event>, after: seq<Event>, launch: Launch)
    requires before <= after && LaunchTail(launch, after[|before|..])
    ensures LaunchesIn(after) == LaunchesIn(before) + [launch]
    ensures NoRemovals(after, |before|) && NoCreations(after, |before|)
    ensures LaunchSettled(after, |before|, launch, |after| == |before| + 1)
  {
    var ran := after[|before|];
    assert |after| > |before| + 1 ==> after[|before|..][1] == after[|before| + 1];
    LaunchAppend(before, ran);
    if |after| == |before| + 1 {
      assert after == before + [ran];
    } else {
      LaunchAppend(before + [ran], after[|before| + 1]);
      assert after == before + [ran] + [after[|before| + 1]];
    }
  }

  class OuterRun {
    const view: View
    const names: Names
    const runtime: Runtime
    const table: ReservationTable
    const policy: Policy
    const launch: Launch
    const limits: Limits
    const credential: Bytes
    const before: Measurement
    var provisioning: seq<Event>
    var post: seq<Event>
    var createdInternal: bool
    var createdExternal: bool
    var createdGateway: bool
    var boundary: Option<Boundary>
    var reservation: Option<OuterReservation>
    var brokerAttempted: bool
    var broker: Option<Event>
    var brokerCleanup: Option<Event>

    constructor (
      view: View, names: Names, runtime: Runtime, table: ReservationTable, policy: Policy,
      launch: Launch, limits: Limits, credential: Bytes, before: Measurement)
      ensures this.view == view && this.names == names && this.runtime == runtime && this.table == table
      ensures this.policy == policy && this.launch == launch && this.limits == limits
      ensures this.credential == credential && this.before == before
      ensures Fresh()
    {
      this.view, this.names, this.runtime, this.table := view, names, runtime, table;
      this.policy, this.launch, this.limits := policy, launch, limits;
      this.credential, this.before := credential, before;
      provisioning, post := [], [];
      createdInternal, createdExternal, createdGateway := false, false, false;
      boundary, reservation, broker, brokerCleanup := None, None, None, None;
      brokerAttempted := false;
    }

    ghost predicate Fresh()
      reads this
    {
      && provisioning == [] && post == [] && CreatedFlags() == Created(false, false, false)
      && boundary.None? && reservation.None? && broker.None? && brokerCleanup.None? && !brokerAttempted
    }

    function CreatedFlags(): Created
      reads this`createdGateway, this`createdInternal, this`createdExternal
    {
      Created(createdGateway, createdInternal, createdExternal)
    }

    function Plan(): RunPlan {
      RunPlan(view, names, policy, launch, limits, credential)
    }

    function Log(): RunLog
      reads this`provisioning, this`broker, this`brokerCleanup, this`post, this`reservation
    {
      RunLog(provisioning, broker, brokerCleanup, post, reservation)
    }

    /** A broker container may exist whose removal was not recorded. */
    predicate Pending()
      reads this`brokerAttempted, this`brokerCleanup
    {
      brokerAttempted && brokerCleanup.None?
    }

    /** A provisioning command; its record is kept before its exit code is judged. */
    method Issue(command: Command) returns (event: Event)
      requires !command.RunBroker?
      modifies this`provisioning, runtime
      ensures event == Event(command, runtime.script(|old(runtime.trace)|))
      ensures runtime.trace == old(runtime.trace) + [event]
      ensures provisioning == old(provisioning) + if Measured(view, event.reply) then [event] else []
    {
      event := Run(runtime, command);
      if Measured(view, event.reply) {
        provisioning := provisioning + [event];
      }
    }

    /** A name that is taken, or cannot be checked, stops the run before anything is created. */
    method Preflight() returns (ok: bool)
      modifies this`provisioning, runtime
      ensures old(runtime.trace) <= runtime.trace && Quiet(runtime.trace, |old(runtime.trace)|)
      ensures NoCreations(runtime.trace, |old(runtime.trace)|)
      ensures ok <==> ThreeSilent(view, runtime.script, |old(runtime.trace)|)
      ensures ok ==>
                var events := Replay(runtime.script, |old(runtime.trace)|, names.Preflight());
                && runtime.trace == old(runtime.trace) + events
                && provisioning == old(provisioning) + events
    {
      var a := Issue(Absence(names.GatewayTarget()));
      if !Silent(view, a.reply) { return false; }
      var b := Issue(Absence(names.InternalTarget()));
      if !Silent(view, b.reply) { return false; }
      var c := Issue(Absence(names.ExternalTarget()));
      if !Silent(view, c.reply) { return false; }
      assert Replay(runtime.script, |old(runtime.trace)|, names.Preflight()) == [a, b, c];
      return true;
    }

    method CreateNetworks() returns (ok: bool)
      modifies this`provisioning, this`createdInternal, this`createdExternal, runtime
      ensures old(runtime.trace) <= runtime.trace && Quiet(runtime.trace, |old(runtime.trace)|)
      ensures createdInternal && Covered(runtime.trace, |old(runtime.trace)|, CreatedFlags(), names)
      ensures old(createdExternal) ==> createdExternal
      ensures ok <==> TwoSucceed(view, runtime.script, |old(runtime.trace)|)
      ensures ok ==>
                var events := Replay(runtime.script, |old(runtime.trace)|, names.NetworkCreations());
                && runtime.trace == old(runtime.trace) + events
                && provisioning == old(provisioning) + events
                && createdInternal && createdExternal
    {
      CreatedTargets(Created(createdGateway, true, createdExternal), names);
      CreatedTargets(Created(createdGateway, true, true), names);
      createdInternal := true;
      var a := Issue(CreateNetwork(names.InternalTarget(), true, names.labels));
      if !Succeeded(view, a.reply) { return false; }
      createdExternal := true;
      var b := Issue(CreateNetwork(names.ExternalTarget(), false, names.labels));
      if !Succeeded(view, b.reply) { return false; }
      assert Replay(runtime.script, |old(runtime.trace)|, names.NetworkCreations()) == [a, b];
      return true;
    }

    method CreateGateway() returns (ok: bool)
      modifies this`provisioning, this`createdGateway, runtime
      ensures old(runtime.trace) <= runtime.trace && Quiet(runtime.trace, |old(runtime.trace)|)
      ensures createdGateway && Covered(runtime.trace, |old(runtime.trace)|, CreatedFlags(), names)
      ensures ok <==> TwoSucceed(view, runtime.script, |old(runtime.trace)|)
      ensures ok ==>
                var events := Replay(runtime.script, |old(runtime.trace)|, names.GatewayCreations());
                && runtime.trace == old(runtime.trace) + events
                && provisioning == old(provisioning) + events
                && createdGateway
    {
      CreatedTargets(Created(true, createdInternal, createdExternal), names);
      createdGateway := true;
      var a := Issue(RunGateway(names.GatewayTarget(), names.externalNetwork, names.image, names.labels));
      if !Succeeded(view, a.reply) { return false; }
      var b := Issue(Connect(names.internalNetwork, names.gateway));
      if !Succeeded(view, b.reply) { return false; }
      assert Replay(runtime.script, |old(runtime.trace)|, names.GatewayCreations()) == [a, b];
      return true;
    }

    method Create() returns (ok: bool)
      modifies this`provisioning, this`createdInternal, this`createdExternal, this`createdGateway, runtime
      ensures old(runtime.trace) <= runtime.trace && Quiet(runtime.trace, |old(runtime.trace)|)
      ensures Covered(runtime.trace, |old(runtime.trace)|, CreatedFlags(), names)
      ensures ok <==> FourSucceed(view, runtime.script, |old(runtime.trace)|)
      ensures ok ==>
                var events := Replay(runtime.script, |old(runtime.trace)|, names.Creations());
                && runtime.trace == old(runtime.trace) + events
                && provisioning == old(provisioning) + events
                && CreatedFlags().All()
    {
      ok := CreateNetworks();
      if !ok { return; }
      ghost var networks, earlier := runtime.trace, CreatedFlags();
      ReplayConcat(runtime.script, |old(runtime.trace)|, names.NetworkCreations(), names.GatewayCreations());
      ok := CreateGateway();
      CreatedTargets(earlier, names);
      CreatedTargets(CreatedFlags(), names);
      CoveredExtend(networks, runtime.trace, |old(runtime.trace)|, earlier, CreatedFlags(), names);
    }

    method InspectAll() returns (ok: bool, records: seq<Event>)
      modifies runtime
      ensures old(runtime.trace) <= runtime.trace && Quiet(runtime.trace, |old(runtime.trace)|)
      ensures NoCreations(runtime.trace, |old(runtime.trace)|)
      ensures ok <==> ThreeSucceed(view, runtime.script, |old(runtime.trace)|)
      ensures ok ==>
                && records == Replay(runtime.script, |old(runtime.trace)|, names.Inspections())
                && runtime.trace == old(runtime.trace) + records
    {
      var a := Run(runtime, Inspection(names.InternalTarget()));
      if !Succeeded(view, a.reply) { return false, []; }
      var b := Run(runtime, Inspection(names.ExternalTarget()));
      if !Succeeded(view, b.reply) { return false, [a]; }
      var c := Run(runtime, Inspection(names.GatewayTarget()));
      if !Succeeded(view, c.reply) { return false, [a, b]; }
      return true, [a, b, c];
    }

    /** The probes, and when all three names are free the four creations. */
    method IssueCreations() returns (ok: bool)
      requires provisioning == []
      modifies this`provisioning, this`createdInternal, this`createdExternal, this`createdGateway, runtime
      ensures old(runtime.trace) <= runtime.trace && Quiet(runtime.trace, |old(runtime.trace)|)
      ensures Covered(runtime.trace, |old(runtime.trace)|, CreatedFlags(), names)
      ensures ok <==> && ThreeSilent(view, runtime.script, |old(runtime.trace)|)
                      && FourSucceed(view, runtime.script, |old(runtime.trace)| + 3)
      ensures ok ==>
                && CreatedFlags().All()
                && provisioning
                   == Replay(runtime.script, |old(runtime.trace)|, names.Preflight() + names.Creations())
                && runtime.trace == old(runtime.trace) + provisioning
    {
      ghost var start := |runtime.trace|;
      ok := Preflight();
      if !ok { return; }
      ghost var probed := runtime.trace;
      ok := Create();
      CoveredExtend(probed, runtime.trace, start, CreatedFlags(), CreatedFlags(), names);
      ReplayConcat(runtime.script, start, names.Preflight(), names.Creations());
    }

    method IssueProvisioning() returns (ok: bool)
      requires provisioning == []
      modifies this`provisioning, this`createdInternal, this`createdExternal, this`createdGateway, runtime
      ensures old(runtime.trace) <= runtime.trace && Quiet(runtime.trace, |old(runtime.trace)|)
      ensures Covered(runtime.trace, |old(runtime.trace)|, CreatedFlags(), names)
      ensures ok <==> TenSucceed(view, runtime.script, |old(runtime.trace)|)
      ensures ok ==>
                && CreatedFlags().All()
                && provisioning == Replay(runtime.script, |old(runtime.trace)|, names.Provisioning())
                && runtime.trace == old(runtime.trace) + provisioning
    {
      ghost var start := |runtime.trace|;
      ok := IssueCreations();
      if !ok { return; }
      ghost var made := runtime.trace;
      var records;
      ok, records := InspectAll();
      CoveredExtend(made, runtime.trace, start, CreatedFlags(), CreatedFlags(), names);
      provisioning := provisioning + records;
      ReplayConcat(runtime.script, start, names.Preflight() + names.Creations(), names.Inspections());
    }

    /** Provisions and validates; the boundary is the canonical form of the three inspections. */
    method Provision() returns (ok: bool)
      requires provisioning == [] && boundary.None?
      modifies this`boundary, this`provisioning, this`createdInternal, this`createdExternal,
               this`createdGateway, runtime
      ensures old(runtime.trace) <= runtime.trace && Quiet(runtime.trace, |old(runtime.trace)|)
      ensures Covered(runtime.trace, |old(runtime.trace)|, CreatedFlags(), names)
      ensures boundary == Attested(view, names, runtime.script, |old(runtime.trace)|)
      ensures ok <==> boundary.Some?
      ensures ok ==>
                && CreatedFlags().All()
                && provisioning == Replay(runtime.script, |old(runtime.trace)|, names.Provisioning())
                && runtime.trace == old(runtime.trace) + provisioning
    {
      ok := IssueProvisioning();
      if !ok { return; }
      AttestedRecords(view, names, runtime.script, |old(runtime.trace)|);
      boundary := BoundarySeen(view, names, Output(provisioning[7].reply),
                               Output(provisioning[8].reply), Output(provisioning[9].reply));
      ok := boundary.Some?;
    }

    /** Runs the broker and removes its container; both are judged only afterwards. */
    method LaunchBroker() returns (ok: bool)
      requires brokerCleanup.None?
      modifies this`brokerAttempted, this`broker, this`brokerCleanup, runtime
      ensures old(runtime.trace) <= runtime.trace
      ensures LaunchTail(launch, runtime.trace[|old(runtime.trace)|..]) && brokerAttempted
      ensures brokerCleanup.Some? ==> |runtime.trace| == |old(runtime.trace)| + 2
      ensures ok <==> BrokerAnswers(view, limits, credential, runtime.script, |old(runtime.trace)|)
      ensures ok ==>
                && broker.Some? && brokerCleanup.Some?
                && [broker.value, brokerCleanup.value]
                   == Replay(runtime.script, |old(runtime.trace)|, BrokerCommands(launch))
                && runtime.trace == old(runtime.trace) + [broker.value, brokerCleanup.value]
    {
      brokerAttempted := true;
      var ran := Run(runtime, RunBroker(launch));
      if !BrokerMeasured(limits, ran.reply) { return false; }
      broker := Some(ran);
      var removed := Run(runtime, RemoveBroker(launch.container));
      if !Measured(view, removed.reply) { return false; }
      brokerCleanup := Some(removed);
      return removed.reply.exitCode == 0 && ran.reply.exitCode == 0
        && !Contains(ran.reply.stdout, credential);
    }

    method ChargeLedger(ledger: LedgerConditions) returns (ok: bool)
      requires SchemaOk(table.rows) && KnownRole(launch.request.role)
      modifies this`reservation, table
      ensures SchemaOk(table.rows)
      ensures table.rows == old(table.rows)
                + if CommitsCharge(policy, old(table.rows), launch.request, ledger)
                  then [Charge(launch.request, ledger.now)] else []
      ensures ok <==> Reserves(policy, old(table.rows), launch.request, ledger)
      ensures ok ==>
                && reservation.Some?
                && PayloadOf(table.identity, old(table.rows), table.rows, launch.request, ledger,
                             reservation.value)
    {
      reservation := table.Reserve(policy, launch.request, ledger.now, ledger.measured, ledger.environment);
      ok := reservation.Some?;
    }

    /** Charges the ledger first; only a committed charge lets the broker container start. */
    method ChargeAndLaunch(ledger: LedgerConditions) returns (ok: bool)
      requires SchemaOk(table.rows) && KnownRole(launch.request.role)
      requires brokerCleanup.None? && !brokerAttempted
      modifies this`reservation, this`brokerAttempted, this`broker, this`brokerCleanup, runtime, table
      ensures SchemaOk(table.rows)
      ensures table.rows == old(table.rows)
                + if CommitsCharge(policy, old(table.rows), launch.request, ledger)
                  then [Charge(launch.request, ledger.now)] else []
      ensures old(runtime.trace) <= runtime.trace && NoRemovals(runtime.trace, |old(runtime.trace)|)
      ensures LaunchesIn(runtime.trace) == LaunchesIn(old(runtime.trace))
                + if Reserves(policy, old(table.rows), launch.request, ledger) then [launch] else []
      ensures NoCreations(runtime.trace, |old(runtime.trace)|)
      ensures LaunchSettled(runtime.trace, |old(runtime.trace)|, launch, Pending())
      ensures ok <==>
                && Reserves(policy, old(table.rows), launch.request, ledger)
                && BrokerAnswers(view, limits, credential, runtime.script, |old(runtime.trace)|)
      ensures ok ==>
                && broker.Some? && brokerCleanup.Some? && reservation.Some?
                && [broker.value, brokerCleanup.value]
                   == Replay(runtime.script, |old(runtime.trace)|, BrokerCommands(launch))
                && runtime.trace == old(runtime.trace) + [broker.value, brokerCleanup.value]
                && PayloadOf(table.identity, old(table.rows), table.rows, launch.request, ledger,
                             reservation.value)
    {
      ok := ChargeLedger(ledger);
      if !ok { return; }
      ok := LaunchBroker();
      LaunchTailCounts(old(runtime.trace), runtime.trace, launch);
    }

    /** The boundary after the broker must be the boundary before it, byte for byte. */
    method PostInspect() returns (ok: bool)
      requires boundary.Some?
      modifies this`post, runtime
      ensures old(runtime.trace) <= runtime.trace && Quiet(runtime.trace, |old(runtime.trace)|)
      ensures NoCreations(runtime.trace, |old(runtime.trace)|)
      ensures ok <==> Unchanged(view, names, boundary.value, runtime.script, |old(runtime.trace)|)
      ensures ok ==>
                && post == Replay(runtime.script, |old(runtime.trace)|, names.Inspections())
                && runtime.trace == old(runtime.trace) + post
    {
      ok, post := InspectAll();
      if !ok { return; }
      ok := BoundarySeen(view, names, Output(post[0].reply), Output(post[1].reply), Output(post[2].reply))
            == boundary;
    }

    /** A container whose removal was not recorded is told to go once more. */
    method RetryRemoval() returns (ok: bool)
      modifies this`brokerCleanup, runtime
      ensures var last := Finishing(|old(runtime.trace)|, old(Pending()));
              && runtime.trace == old(runtime.trace) + last.Removal(launch.container, runtime.script)
              && (ok <==> last.pending ==> Succeeded(view, runtime.script(last.mid)))
      ensures !old(Pending()) ==> brokerCleanup == old(brokerCleanup)
    {
      ok := true;
      if Pending() {
        var retried := Run(runtime, RemoveBroker(launch.container));
        if Measured(view, retried.reply) {
          brokerCleanup := Some(retried);
        }
        ok := Succeeded(view, retried.reply);
      }
    }

    /** The finally block: every step is attempted, whatever failed before it. */
    method Finish() returns (ok: bool, cleanup: seq<Event>, absence: seq<Event>)
      modifies this`brokerCleanup, runtime
      ensures Finishing(|old(runtime.trace)|, old(Pending())).Done(
                view, launch.container, runtime.script, CreatedFlags().Of(names), old(runtime.trace),
                runtime.trace, ok, cleanup, absence)
      ensures !old(Pending()) ==> brokerCleanup == old(brokerCleanup)
    {
      ghost var last := Finishing(|runtime.trace|, Pending());
      var removed := RetryRemoval();
      assert |runtime.trace| == last.Start();
      var torn;
      torn, cleanup, absence := TakeDown(view, names, runtime, CreatedFlags());
      last.Combine(view, launch.container, runtime.script, CreatedFlags().Of(names), old(runtime.trace),
                   removed, torn, cleanup, absence);
      ok := removed && torn;
    }

    /** The charged part: launch, then inspect again. */
    method ChargeAndInspect(ledger: LedgerConditions) returns (ok: bool)
      requires boundary.Some? && brokerCleanup.None? && !brokerAttempted
      requires SchemaOk(table.rows) && KnownRole(launch.request.role)
      modifies this`reservation, this`brokerAttempted, this`broker, this`brokerCleanup, this`post, runtime, table
      ensures SchemaOk(table.rows)
      ensures table.rows == old(table.rows)
                + if CommitsCharge(policy, old(table.rows), launch.request, ledger)
                  then [Charge(launch.request, ledger.now)] else []
      ensures old(runtime.trace) <= runtime.trace && NoRemovals(runtime.trace, |old(runtime.trace)|)
      ensures LaunchesIn(runtime.trace) == LaunchesIn(old(runtime.trace))
                + if Reserves(policy, old(table.rows), launch.request, ledger) then [launch] else []
      ensures NoCreations(runtime.trace, |old(runtime.trace)|)
      ensures LaunchSettled(runtime.trace, |old(runtime.trace)|, launch, Pending())
      ensures ok <==>
                && Reserves(policy, old(table.rows), launch.request, ledger)
                && BrokerAnswers(view, limits, credential, runtime.script, |old(runtime.trace)|)
                && Unchanged(view, names, boundary.value, runtime.script, |old(runtime.trace)| + 2)
      ensures ok ==>
                && broker.Some? && brokerCleanup.Some? && reservation.Some?
                && [broker.value, brokerCleanup.value]
                   == Replay(runtime.script, |old(runtime.trace)|, BrokerCommands(launch))
                && post == Replay(runtime.script, |old(runtime.trace)| + 2, names.Inspections())
                && |runtime.trace| == |old(runtime.trace)| + 5
                && PayloadOf(table.identity, old(table.rows), table.rows, launch.request, ledger,
                             reservation.value)
    {
      ok := ChargeAndLaunch(ledger);
      if !ok { return; }
      ghost var launched := runtime.trace;
      ok := PostInspect();
      LaunchesUnchanged(launched, runtime.trace);
      SettledExtend(launched, runtime.trace, |old(runtime.trace)|, launch, Pending());
    }

    /** Everything up to the last inspection; any failure leaves the rest to `Finish`. */
    method Attempt(ledger: LedgerConditions) returns (ok: bool)
      requires Fresh() && SchemaOk(table.rows) && KnownRole(launch.request.role)
      modifies this, runtime, table
      ensures SchemaOk(table.rows)
      ensures Plan().Charged(runtime.script, old(runtime.trace), runtime.trace, old(table.rows), table.rows, ledger)
      ensures Plan().Interrupted(CreatedFlags(), old(runtime.trace), runtime.trace, Pending())
      ensures ok <==> Plan().Succeeds(runtime.script, |old(runtime.trace)|, old(table.rows), ledger)
      ensures ok ==>
                && !Pending() && CreatedFlags().All() && |runtime.trace| == |old(runtime.trace)| + 15
                && Plan().Recorded(Log(), runtime.script, |old(runtime.trace)|)
                && PayloadOf(table.identity, old(table.rows), table.rows, launch.request, ledger,
                             reservation.value)
    {
      ok := Provision();
      LaunchesUnchanged(old(runtime.trace), runtime.trace);
      if !ok { return; }
      ghost var provisioned := runtime.trace;
      ok := ChargeAndInspect(ledger);
      CoveredExtend(provisioned, runtime.trace, |old(runtime.trace)|, CreatedFlags(), CreatedFlags(), names);
      SettledLater(provisioned, runtime.trace, |old(runtime.trace)|, launch, Pending());
    }

    /** The attempt and, whatever became of it, the clean-up. */
    method AttemptAndFinish(ledger: LedgerConditions)
      returns (ok: bool, cleaned: bool, cleanup: seq<Event>, absence: seq<Event>, ghost last: Finishing)
      requires Fresh() && SchemaOk(table.rows) && KnownRole(launch.request.role)
      modifies this, runtime, table
      ensures SchemaOk(table.rows)
      ensures Plan().Charged(runtime.script, old(runtime.trace), runtime.trace, old(table.rows), table.rows, ledger)
      ensures Plan().Ended(runtime.script, CreatedFlags(), old(runtime.trace), runtime.trace, old(table.rows),
                           ledger, last, cleaned, ok)
      ensures ok ==>
                && Plan().Recorded(Log(), runtime.script, |old(runtime.trace)|)
                && cleanup == Replay(runtime.script, |old(runtime.trace)| + 15, names.Removals())
                && absence == Replay(runtime.script, |old(runtime.trace)| + 21, names.Preflight())
                && PayloadOf(table.identity, old(table.rows), table.rows, launch.request, ledger,
                             reservation.value)
    {
      var attempted := Attempt(ledger);
      last := Finishing(|runtime.trace|, Pending());
      ghost var middle := runtime.trace;
      cleaned, cleanup, absence := Finish();
      Plan().Ends(runtime.script, CreatedFlags(), old(runtime.trace), middle, runtime.trace, old(table.rows),
                  ledger, last, attempted, cleaned, cleanup, absence);
      ok := attempted && cleaned;
    }

    /** The last probe; the runtime must be the one measured before the run. */
    method Conclude(after: Option<Backend>, clock: Clock, cleanup: seq<Event>, absence: seq<Event>)
      returns (outcome: RunOutcome)
      requires broker.Some? && brokerCleanup.Some? && reservation.Some?
      modifies runtime
      ensures runtime.trace == old(runtime.trace) + [Event(Probe, runtime.script(|old(runtime.trace)|))]
      ensures outcome != CleanupUnattested
      ensures outcome.Completed?
         <==> ProbeAnswers(view, runtime.script(|old(runtime.trace)|)) && after == Some(before.backend)
      ensures outcome.Completed? ==>
                var probe := Event(Probe, runtime.script(|old(runtime.trace)|));
                outcome.evidence == RunEvidence(
                  names, launch.request, provisioning, broker.value, brokerCleanup.value, post, cleanup,
                  absence, reservation.value, before, Measurement(probe, before.backend), clock)
    {
      var probe := Run(runtime, Probe);
      if !ProbeAnswers(view, probe.reply) || after != Some(before.backend) {
        return RunFailed;
      }
      return Completed(RunEvidence(
        names, launch.request, provisioning, broker.value, brokerCleanup.value, post, cleanup, absence,
        reservation.value, before, Measurement(probe, after.value), clock));
    }

    /**
     One run.  It yields evidence exactly when its charge commits and the runtime answers every one of
     its commands as required; it launches at most once, and only after a committed charge.  On every
     path everything created was inspected, removed if owned and probed, and a launched container told
     to go; the error says a clean-up could not be attested exactly when one of its steps failed.
     */
    method Execute(ledger: LedgerConditions, after: Option<Backend>, clock: Clock)
      returns (outcome: RunOutcome, ghost last: Finishing)
      requires Fresh() && SchemaOk(table.rows) && KnownRole(launch.request.role)
      modifies this, runtime, table
      ensures SchemaOk(table.rows)
      ensures Plan().Charged(runtime.script, old(runtime.trace), runtime.trace, old(table.rows), table.rows, ledger)
      ensures Plan().Finished(runtime.script, CreatedFlags(), old(runtime.trace), runtime.trace, last)
      ensures outcome == CleanupUnattested <==> !last.Ok(view, runtime.script, CreatedFlags().Of(names))
      ensures outcome.Completed? <==>
                && Reserves(policy, old(table.rows), launch.request, ledger)
                && RunAnswers(view, names, limits, credential, runtime.script, |old(runtime.trace)|)
                && after == Some(before.backend)
      ensures outcome.Completed? ==>
                && Emitted(outcome.evidence, names, launch, runtime.script, |old(runtime.trace)|)
                && outcome.evidence.before == before && outcome.evidence.after.backend == before.backend
                && outcome.evidence.clock == clock
                && |runtime.trace| == |old(runtime.trace)| + 25
                && PayloadOf(table.identity, old(table.rows), table.rows, launch.request, ledger,
                             outcome.evidence.reservation)
    {
      var ok, cleaned, cleanup, absence;
      ok, cleaned, cleanup, absence, last := AttemptAndFinish(ledger);
      Plan().Concludes(runtime.script, CreatedFlags(), old(runtime.trace), runtime.trace, old(table.rows),
                       ledger, last, cleaned, ok);
      outcome := if cleaned then RunFailed else CleanupUnattested;
      if ok {
        outcome := Conclude(after, clock, cleanup, absence);
      }
    }
  }

  lemma {:induction false} RemovedLater(before: seq<Event>, after: seq<Event>, from: nat)
    requires from <= |before| && before <= after && NoLaunches(after, |before|)
    requires LaunchesRemoved(before, from)
    ensures LaunchesRemoved(after, from)
  {
    forall i | from <= i < |after| && after[i].command.RunBroker?
      ensures RemovalIssued(after, i + 1, after[i].command.launch.container)
    {
      assert i < |before| && after[i] == before[i];
      var j :| i + 1 <= j < |before| && before[j].command == RemoveBroker(before[i].command.launch.container);
      assert after[j] == before[j];
    }
  }
}
