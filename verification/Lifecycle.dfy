/**
 The commands of an egress lifecycle, their two independently written argument-vector builders, and
 the container runtime that answers them.
 */
module Lifecycle {
  import opened Wrappers
  import opened Utf8
  import opened BrokerLedger
  import opened Inspect

  type Argv = seq<Text>

  /** One broker container: what it is charged for, its name, its prepared arguments and input. */
  datatype Launch = Launch(request: Request, container: Text, descriptor: Argv, stdin: Bytes)

  datatype Command =
    | Absence(target: Target)
    | CreateNetwork(target: Target, isInternal: bool, labels: Labels)
    | RunGateway(target: Target, externalNetwork: Text, image: Text, labels: Labels)
    | Connect(internalNetwork: Text, gateway: Text)
    | Inspection(target: Target)
    | Remove(target: Target)
    | RunBroker(launch: Launch)
    | RemoveBroker(container: Text)
    | Probe

  /** A command raised (whatever it did first), or finished with an exit code and its streams. */
  datatype Reply = Raised | Finished(exitCode: int, stdout: Bytes, stderr: Bytes, duration: nat)

  datatype Event = Event(command: Command, reply: Reply)

  /** A runtime whose n-th answer is arbitrary: every failure pattern is some script. */
  class Runtime {
    const script: nat -> Reply
    var trace: seq<Event>

    constructor (script: nat -> Reply)
      ensures this.script == script && trace == []
    {
      this.script := script;
      trace := [];
    }

    method Execute(command: Command) returns (reply: Reply)
      modifies this
      ensures reply == script(|old(trace)|)
      ensures trace == old(trace) + [Event(command, reply)]
    {
      reply := script(|trace|);
      trace := trace + [Event(command, reply)];
    }
  }

  /** The runtime binary a batch or session is bound to. */
  datatype Backend = Backend(
    name: Text, executable: Text, rootless: bool, sha256: Text, security: Text, device: int, inode: int)

  const INTERNAL_KIND := T("broker-internal")
  const EXTERNAL_KIND := T("gateway-external")
  const GATEWAY_KIND := T("gateway")

  /** The three resources a lifecycle owns, and the labels that mark them as its own. */
  datatype Names = Names(
    gateway: Text, internalNetwork: Text, externalNetwork: Text, image: Text, labels: Labels)
  {
    function GatewayTarget(): Target { Target(Container, gateway, GATEWAY_KIND) }

    function InternalTarget(): Target { Target(Network, internalNetwork, INTERNAL_KIND) }

    function ExternalTarget(): Target { Target(Network, externalNetwork, EXTERNAL_KIND) }

    function Shape(): GatewayShape {
      GatewayShape(gateway, image, internalNetwork, externalNetwork, labels)
    }

    /** In the order they are removed. */
    function Targets(): seq<Target> {
      [GatewayTarget(), InternalTarget(), ExternalTarget()]
    }

    function Preflight(): seq<Command> {
      [Absence(GatewayTarget()), Absence(InternalTarget()), Absence(ExternalTarget())]
    }

    function Inspections(): seq<Command> {
      [Inspection(InternalTarget()), Inspection(ExternalTarget()), Inspection(GatewayTarget())]
    }

    function NetworkCreations(): seq<Command> {
      [CreateNetwork(InternalTarget(), true, labels), CreateNetwork(ExternalTarget(), false, labels)]
    }

    function GatewayCreations(): seq<Command> {
      [RunGateway(GatewayTarget(), externalNetwork, image, labels), Connect(internalNetwork, gateway)]
    }

    function Creations(): seq<Command> {
      NetworkCreations() + GatewayCreations()
    }

    /** Ten commands: absent, created, inspected. */
    function Provisioning(): seq<Command> {
      Preflight() + Creations() + Inspections()
    }

    /** Six commands: each resource inspected, then removed. */
    function Removals(): seq<Command> {
      [Inspection(GatewayTarget()), Remove(GatewayTarget()),
       Inspection(InternalTarget()), Remove(InternalTarget()),
       Inspection(ExternalTarget()), Remove(ExternalTarget())]
    }
  }

  /**
   How a process reads the runtime: how much standard error it tolerates, which inspection output it
   accepts, and the canonical bytes it keeps.
   */
  datatype View = View(
    maxStderr: nat,
    network: (Bytes, Target, bool) -> Option<Bytes>,
    gateway: (Bytes, bool) -> Option<Bytes>,
    crashes: Bytes -> bool,
    owned: (Bytes, Target) -> bool)
  {
    /** The three ways the gateway validator can end. */
    function Read(raw: Bytes, requireRunning: bool): Reading {
      if gateway(raw, requireRunning).Some? then Accepted(gateway(raw, requireRunning).value)
      else if crashes(raw) then Crashed else Refused
    }
  }

  /**
   The root-owned outer executor's reading.  It never insists on a running gateway, and whatever its
   validators raise is caught where they are called.
   */
  function OuterView(fold: Text -> Text, n: Names): View {
    View(
      64_000,
      (raw, target, isInternal) => OuterNetwork(raw, target, isInternal, n.gateway, n.labels),
      (raw, requireRunning) => OuterGateway(fold, raw, n.Shape()),
      raw => false,
      (raw, target) => OuterOwned(raw, target, n.labels))
  }

  /** The coordinator's reading. */
  function CheckerView(fold: Text -> Text, n: Names): View {
    View(
      16_000,
      (raw, target, isInternal) => CheckerNetwork(raw, target, isInternal, n.gateway, n.labels),
      (raw, requireRunning) => CheckerGateway(fold, raw, n.Shape(), requireRunning),
      raw => GatewayCrashes(fold, raw, n.Shape()),
      (raw, target) => CheckerOwned(raw, target, n.labels))
  }

  /** Every removal from `from` on directly follows a successful inspection showing ownership. */
  ghost predicate OwnedRemovals(trace: seq<Event>, from: nat, view: View) {
    forall i :: from <= i < |trace| && trace[i].command.Remove? ==>
      from < i && ShowsOwned(trace[i - 1], trace[i].command.target, view)
  }

  lemma {:induction false} OwnedRemovalsExtend(before: seq<Event>, after: seq<Event>, from: nat, view: View)
    requires from <= |before| && before <= after
    requires OwnedRemovals(before, from, view) && OwnedRemovals(after, |before|, view)
    ensures OwnedRemovals(after, from, view)
  {
    forall i | from <= i < |after| && after[i].command.Remove?
      ensures from < i && ShowsOwned(after[i - 1], after[i].command.target, view)
    {
      if i < |before| {
        assert after[i] == before[i] && after[i - 1] == before[i - 1];
      }
    }
  }

  predicate ShowsOwned(event: Event, target: Target, view: View) {
    && event.command == Inspection(target)
    && event.reply.Finished? && event.reply.exitCode == 0 && view.owned(event.reply.stdout, target)
  }

  /** The events of these commands when the script answers them from position `start`. */
  function Replay(script: nat -> Reply, start: nat, commands: seq<Command>): (events: seq<Event>)
    ensures |events| == |commands|
  {
    seq(|commands|, k requires 0 <= k < |commands| => Event(commands[k], script(start + k)))
  }

  lemma {:induction false} ReplayConcat(script: nat -> Reply, start: nat, a: seq<Command>, b: seq<Command>)
    ensures Replay(script, start, a + b) == Replay(script, start, a) + Replay(script, start + |a|, b)
  {
  }

  function Output(reply: Reply): Bytes {
    if reply.Finished? then reply.stdout else []
  }

  ghost predicate NoLaunches(trace: seq<Event>, from: nat) {
    forall i :: from <= i < |trace| ==> !trace[i].command.RunBroker?
  }

  /** Neither a removal nor a launch. */
  ghost predicate Quiet(trace: seq<Event>, from: nat) {
    NoRemovals(trace, from) && NoLaunches(trace, from)
  }

  /** The broker containers launched so far, in order. */
  function LaunchesIn(trace: seq<Event>): seq<Launch> {
    if trace == [] then []
    else
      var last := trace[|trace| - 1];
      LaunchesIn(trace[..|trace| - 1]) + if last.command.RunBroker? then [last.command.launch] else []
  }

  lemma {:induction false} LaunchAppend(trace: seq<Event>, event: Event)
    ensures LaunchesIn(trace + [event])
         == LaunchesIn(trace) + if event.command.RunBroker? then [event.command.launch] else []
  {
    assert (trace + [event])[..|trace|] == trace;
  }

  lemma {:induction false} LaunchesUnchanged(before: seq<Event>, after: seq<Event>)
    requires before <= after && NoLaunches(after, |before|)
    ensures LaunchesIn(after) == LaunchesIn(before)
  {
    if before != after {
      LaunchesUnchanged(before, after[..|after| - 1]);
      assert after == after[..|after| - 1] + [after[|after| - 1]];
    }
  }

  ghost predicate NoRemovals(trace: seq<Event>, from: nat) {
    forall i :: from <= i < |trace| ==> !trace[i].command.Remove?
  }

  // ---------------------------------------------------------------- what success means

  const MAX_COMMAND_MILLISECONDS := 30_000

  /** A reply kept as a record; anything else raises. */
  predicate Measured(view: View, reply: Reply) {
    && reply.Finished?
    && |reply.stdout| <= MAX_INSPECT_BYTES
    && |reply.stderr| <= view.maxStderr
    && reply.duration <= MAX_COMMAND_MILLISECONDS
  }

  predicate Succeeded(view: View, reply: Reply) {
    Measured(view, reply) && reply.exitCode == 0
  }

  predicate Silent(view: View, reply: Reply) {
    Succeeded(view, reply) && reply.stdout == []
  }

  ghost predicate ThreeSucceed(view: View, script: nat -> Reply, start: nat) {
    && Succeeded(view, script(start)) && Succeeded(view, script(start + 1))
    && Succeeded(view, script(start + 2))
  }

  ghost predicate TwoSucceed(view: View, script: nat -> Reply, start: nat) {
    Succeeded(view, script(start)) && Succeeded(view, script(start + 1))
  }

  ghost predicate FourSucceed(view: View, script: nat -> Reply, start: nat) {
    TwoSucceed(view, script, start) && TwoSucceed(view, script, start + 2)
  }

  ghost predicate ThreeSilent(view: View, script: nat -> Reply, start: nat) {
    Silent(view, script(start)) && Silent(view, script(start + 1)) && Silent(view, script(start + 2))
  }

  /** What provisioning attested of the three resources. */
  datatype Boundary = Boundary(internal: Bytes, external: Bytes, gateway: Bytes)

  /** Both networks hold exactly the gateway and carry this session's labels. */
  function NetworksSeen(view: View, n: Names, internal: Bytes, external: Bytes): Option<(Bytes, Bytes)> {
    var a := view.network(internal, n.InternalTarget(), true);
    var b := view.network(external, n.ExternalTarget(), false);
    if a.Some? && b.Some? then Some((a.value, b.value)) else None
  }

  /** The boundary attested by three inspection outputs of a running gateway. */
  function BoundarySeen(view: View, n: Names, internal: Bytes, external: Bytes, gateway: Bytes)
    : Option<Boundary>
  {
    var networks := NetworksSeen(view, n, internal, external);
    var c := view.gateway(gateway, true);
    if networks.Some? && c.Some? then Some(Boundary(networks.value.0, networks.value.1, c.value)) else None
  }

  method Run(runtime: Runtime, command: Command) returns (event: Event)
    modifies runtime
    ensures event == Event(command, runtime.script(|old(runtime.trace)|))
    ensures runtime.trace == old(runtime.trace) + [event]
  {
    var reply := runtime.Execute(command);
    event := Event(command, reply);
  }

  // ---------------------------------------------------------------- the outer executor's builders

  const OWNER_LABEL := T("--label=ai-review.owner-sha256=")
  const SESSION_LABEL := T("--label=ai-review.session-sha256=")
  const KIND_LABEL := T("--label=ai-review.kind=")

  function OuterAbsence(runtime: Text, target: Target): Argv {
    var noun := if target.resource.Container? then T("container") else T("network");
    var format := if target.resource.Container? then T("{{.Names}}") else T("{{.Name}}");
    [runtime, noun, T("ls")]
    + (if target.resource.Container? then [T("--all")] else [])
    + [T("--filter"), T("name=^") + target.name + T("$"), T("--format=") + format]
  }

  function OuterNoun(resource: Resource): Text {
    if resource.Container? then T("container") else T("network")
  }

  function OuterRemove(runtime: Text, target: Target): Argv {
    if target.resource.Container? then
      [runtime, T("container"), T("rm"), T("-f"), T("--"), target.name]
    else [runtime, T("network"), T("rm"), T("--"), target.name]
  }

  function OuterNetworkCreate(runtime: Text, target: Target, isInternal: bool, labels: Labels): Argv {
    [runtime, T("network"), T("create"), T("--driver=bridge")]
    + (if isInternal then [T("--internal")] else [])
    + [OWNER_LABEL + labels.owner, SESSION_LABEL + labels.session, KIND_LABEL + target.kind, target.name]
  }

  const KEEP_ID := T("--userns=keep-id:uid=65532,gid=65532")

  function OuterUserNamespace(backend: Backend): Argv {
    if backend.name == T("podman") && backend.rootless then [KEEP_ID]
    else if backend.name == T("podman") then [T("--userns=auto")]
    else []
  }

  function GatewayLimits(): Argv {
    [T("--user=65532:65532"), T("--workdir=/"), T("--pids-limit=32"), T("--memory=128m"),
     T("--cpus=0.5"), T("--tmpfs=/tmp:rw,noexec,nosuid,nodev,size=4m,mode=1777"),
     T("--env=AI_REVIEW_EGRESS_GATEWAY=1")]
  }

  function OuterGatewayRun(
    backend: Backend, target: Target, externalNetwork: Text, image: Text, labels: Labels): Argv
  {
    [backend.executable, T("run"), T("--detach"), T("--pull=never"), T("--name=") + target.name,
     T("--network=") + externalNetwork, T("--read-only"), T("--cap-drop=ALL"),
     T("--security-opt=no-new-privileges"), T("--ipc=none")]
    + OuterUserNamespace(backend)
    + GatewayLimits()
    + [OWNER_LABEL + labels.owner, SESSION_LABEL + labels.session,
       T("--label=ai-review.kind=gateway"), T("--entrypoint=") + GATEWAY_ENTRYPOINT, image]
  }

  function ConnectArgv(runtime: Text, internalNetwork: Text, gateway: Text): Argv {
    [runtime, T("network"), T("connect"), T("--alias"), GATEWAY_ALIAS, internalNetwork, gateway]
  }

  function BrokerArgv(runtime: Text, descriptor: Argv): Argv {
    [runtime] + if descriptor == [] then [] else descriptor[1..]
  }

  function BrokerRemoveArgv(runtime: Text, container: Text): Argv {
    [runtime, T("rm"), T("-f"), T("--"), container]
  }

  function ProbeArgv(backend: Backend): Argv {
    [backend.executable, T("info"), T("--format")]
    + [if backend.name == T("podman") then T("json") else T("{{json .SecurityOptions}}")]
  }

  /** The argument vector the outer executor records for a command. */
  function OuterArgv(backend: Backend, command: Command): Argv {
    var runtime := backend.executable;
    match command
    case Absence(target) => OuterAbsence(runtime, target)
    case CreateNetwork(target, isInternal, labels) => OuterNetworkCreate(runtime, target, isInternal, labels)
    case RunGateway(target, externalNetwork, image, labels) =>
      OuterGatewayRun(backend, target, externalNetwork, image, labels)
    case Connect(internalNetwork, gateway) => ConnectArgv(runtime, internalNetwork, gateway)
    case Inspection(target) => [runtime, OuterNoun(target.resource), T("inspect"), T("--"), target.name]
    case Remove(target) => OuterRemove(runtime, target)
    case RunBroker(launch) => BrokerArgv(runtime, launch.descriptor)
    case RemoveBroker(container) => BrokerRemoveArgv(runtime, container)
    case Probe => ProbeArgv(backend)
  }

  // ---------------------------------------------------------------- the coordinator's builders

  function ContainerAbsenceArgv(backend: Backend, name: Text): Argv {
    [backend.executable, T("container"), T("ls"), T("--all"), T("--filter"),
     T("name=^") + name + T("$"), T("--format={{.Names}}")]
  }

  function NetworkAbsenceArgv(backend: Backend, name: Text): Argv {
    [backend.executable, T("network"), T("ls"), T("--filter"),
     T("name=^") + name + T("$"), T("--format={{.Name}}")]
  }

  function NetworkCreateArgv(
    backend: Backend, name: Text, isInternal: bool, labels: Labels, kind: Text): Argv
  {
    [backend.executable, T("network"), T("create"), T("--driver=bridge")]
    + (if isInternal then [T("--internal")] else [])
    + [OWNER_LABEL + labels.owner, SESSION_LABEL + labels.session, KIND_LABEL + kind, name]
  }

  function UserNamespaceArgv(backend: Backend): Argv {
    if backend.name == T("podman") then
      if backend.rootless then [KEEP_ID] else [T("--userns=auto")]
    else []
  }

  function GatewayRunArgv(
    backend: Backend, gateway: Text, externalNetwork: Text, image: Text, labels: Labels): Argv
  {
    [backend.executable, T("run"), T("--detach"), T("--pull=never"), T("--name=") + gateway,
     T("--network=") + externalNetwork, T("--read-only"), T("--cap-drop=ALL"),
     T("--security-opt=no-new-privileges"), T("--ipc=none")]
    + UserNamespaceArgv(backend)
    + GatewayLimits()
    + [OWNER_LABEL + labels.owner, SESSION_LABEL + labels.session,
       T("--label=ai-review.kind=gateway"), T("--entrypoint=") + GATEWAY_ENTRYPOINT, image]
  }

  function NetworkInspectArgv(backend: Backend, name: Text): Argv {
    [backend.executable, T("network"), T("inspect"), T("--"), name]
  }

  function ContainerInspectArgv(backend: Backend, name: Text): Argv {
    [backend.executable, T("container"), T("inspect"), T("--"), name]
  }

  function ContainerRemoveArgv(backend: Backend, name: Text): Argv {
    [backend.executable, T("container"), T("rm"), T("-f"), T("--"), name]
  }

  function NetworkRemoveArgv(backend: Backend, name: Text): Argv {
    [backend.executable, T("network"), T("rm"), T("--"), name]
  }

  // ---------------------------------------------------------------- the expected sequences

  function PreflightArgv(backend: Backend, n: Names): seq<Argv> {
    [ContainerAbsenceArgv(backend, n.gateway),
     NetworkAbsenceArgv(backend, n.internalNetwork),
     NetworkAbsenceArgv(backend, n.externalNetwork)]
  }

  function ProvisionArgv(backend: Backend, n: Names): seq<Argv> {
    PreflightArgv(backend, n)
    + [NetworkCreateArgv(backend, n.internalNetwork, true, n.labels, INTERNAL_KIND),
       NetworkCreateArgv(backend, n.externalNetwork, false, n.labels, EXTERNAL_KIND),
       GatewayRunArgv(backend, n.gateway, n.externalNetwork, n.image, n.labels),
       ConnectArgv(backend.executable, n.internalNetwork, n.gateway)]
    + PostArgv(backend, n)
  }

  function PostArgv(backend: Backend, n: Names): seq<Argv> {
    [NetworkInspectArgv(backend, n.internalNetwork),
     NetworkInspectArgv(backend, n.externalNetwork),
     ContainerInspectArgv(backend, n.gateway)]
  }

  function CleanupArgv(backend: Backend, n: Names): seq<Argv> {
    [ContainerInspectArgv(backend, n.gateway), ContainerRemoveArgv(backend, n.gateway),
     NetworkInspectArgv(backend, n.internalNetwork), NetworkRemoveArgv(backend, n.internalNetwork),
     NetworkInspectArgv(backend, n.externalNetwork), NetworkRemoveArgv(backend, n.externalNetwork)]
  }

  function Rendered(backend: Backend, commands: seq<Command>): seq<Argv> {
    seq(|commands|, i requires 0 <= i < |commands| => OuterArgv(backend, commands[i]))
  }

  lemma {:induction false} FormatsAgree()
    ensures T("--format=") + T("{{.Names}}") == T("--format={{.Names}}")
    ensures T("--format=") + T("{{.Name}}") == T("--format={{.Name}}")
  {
  }

  lemma {:induction false} BuildersAgreeOnTarget(backend: Backend, target: Target)
    ensures OuterArgv(backend, Absence(target))
         == if target.resource.Container? then ContainerAbsenceArgv(backend, target.name)
            else NetworkAbsenceArgv(backend, target.name)
    ensures OuterArgv(backend, Inspection(target))
         == if target.resource.Container? then ContainerInspectArgv(backend, target.name)
            else NetworkInspectArgv(backend, target.name)
    ensures OuterArgv(backend, Remove(target))
         == if target.resource.Container? then ContainerRemoveArgv(backend, target.name)
            else NetworkRemoveArgv(backend, target.name)
  {
    FormatsAgree();
  }

  lemma {:induction false} RenderedConcat(backend: Backend, a: seq<Command>, b: seq<Command>)
    ensures Rendered(backend, a + b) == Rendered(backend, a) + Rendered(backend, b)
  {
  }

  lemma {:induction false} InspectionsRender(backend: Backend, n: Names)
    ensures Rendered(backend, n.Inspections()) == PostArgv(backend, n)
    ensures Rendered(backend, n.Preflight()) == PreflightArgv(backend, n)
  {
    BuildersAgreeOnTarget(backend, n.GatewayTarget());
    BuildersAgreeOnTarget(backend, n.InternalTarget());
    BuildersAgreeOnTarget(backend, n.ExternalTarget());
  }

  lemma {:induction false} RemovalsRender(backend: Backend, n: Names)
    ensures Rendered(backend, n.Removals()) == CleanupArgv(backend, n)
  {
    BuildersAgreeOnTarget(backend, n.GatewayTarget());
    BuildersAgreeOnTarget(backend, n.InternalTarget());
    BuildersAgreeOnTarget(backend, n.ExternalTarget());
  }

  lemma {:induction false} CreationsRender(backend: Backend, n: Names)
    ensures Rendered(backend, n.Creations())
         == [NetworkCreateArgv(backend, n.internalNetwork, true, n.labels, INTERNAL_KIND),
             NetworkCreateArgv(backend, n.externalNetwork, false, n.labels, EXTERNAL_KIND),
             GatewayRunArgv(backend, n.gateway, n.externalNetwork, n.image, n.labels),
             ConnectArgv(backend.executable, n.internalNetwork, n.gateway)]
  {
  }

  /** The four command groups of a lifecycle render to the sequences the coordinator re-derives. */
  lemma {:induction false} BuildersAgree(backend: Backend, n: Names)
    ensures Rendered(backend, n.Provisioning()) == ProvisionArgv(backend, n)
    ensures Rendered(backend, n.Inspections()) == PostArgv(backend, n)
    ensures Rendered(backend, n.Removals()) == CleanupArgv(backend, n)
    ensures Rendered(backend, n.Preflight()) == PreflightArgv(backend, n)
  {
    InspectionsRender(backend, n);
    RemovalsRender(backend, n);
    CreationsRender(backend, n);
    RenderedConcat(backend, n.Preflight(), n.Creations());
    RenderedConcat(backend, n.Preflight() + n.Creations(), n.Inspections());
  }
}
