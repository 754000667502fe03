/**
 The coordinator's egress session: a single-use context that owns one gateway and two networks.

 Every runtime command may raise or fail, with or without having taken effect.
 */
module EgressSession {
  import opened Wrappers
  import opened Utf8
  import opened Inspect
  import opened Lifecycle
  import opened Teardown

  predicate ExitedZero(records: seq<Event>) {
    forall i :: 0 <= i < |records| ==> records[i].reply.Finished? && records[i].reply.exitCode == 0
  }

  lemma {:induction false} ExitedZeroConcat(a: seq<Event>, b: seq<Event>)
    ensures ExitedZero(a + b) <==> ExitedZero(a) && ExitedZero(b)
  {
    if ExitedZero(a + b) {
      assert forall i :: 0 <= i < |a| ==> (a + b)[i] == a[i];
      assert forall i :: 0 <= i < |b| ==> (a + b)[|a| + i] == b[i];
    }
  }

  predicate Contains(bytes: Bytes, needle: Bytes) {
    needle <= bytes || (bytes != [] && Contains(bytes[1..], needle))
  }

  const CREDENTIAL_NAME := T("OPENAI_API_KEY")

  /** A record that names the credential cannot be hashed into evidence. */
  predicate Marked(record: Event) {
    && record.reply.Finished?
    && (Contains(record.reply.stdout, CREDENTIAL_NAME) || Contains(record.reply.stderr, CREDENTIAL_NAME))
  }

  predicate AnyMarked(records: seq<Event>) {
    exists i :: 0 <= i < |records| && Marked(records[i])
  }

  predicate Zero(record: Event) {
    record.reply.Finished? && record.reply.exitCode == 0
  }

  lemma {:induction false} ZeroOfThree(earlier: seq<Event>, a: Event, b: Event, c: Event)
    ensures ExitedZero(earlier + [a, b, c]) <==> ExitedZero(earlier) && Zero(a) && Zero(b) && Zero(c)
  {
    ExitedZeroConcat(earlier, [a, b, c]);
    assert [a, b, c][0] == a && [a, b, c][1] == b && [a, b, c][2] == c;
  }

  // ---------------------------------------------------------------- what success means

  /** Ten successes from `start`: three free names, four creations, three inspections. */
  ghost predicate TenSucceed(view: View, script: nat -> Reply, start: nat) {
    && ThreeSilent(view, script, start)
    && FourSucceed(view, script, start + 3)
    && ThreeSucceed(view, script, start + 7)
  }

  /** The boundary attested by ten successful commands from `start`. */
  ghost function Attested(view: View, n: Names, script: nat -> Reply, start: nat): Option<Boundary> {
    if TenSucceed(view, script, start) then
      BoundarySeen(view, n, Output(script(start + 7)), Output(script(start + 8)), Output(script(start + 9)))
    else None
  }

  lemma {:induction false} AttestedRecords(view: View, n: Names, script: nat -> Reply, start: nat)
    requires TenSucceed(view, script, start)
    ensures var events := Replay(script, start, n.Provisioning());
            |events| == 10 && Attested(view, n, script, start)
            == BoundarySeen(view, n, Output(events[7].reply), Output(events[8].reply), Output(events[9].reply))
  {
  }

  /** Nothing about the networks changed since provisioning, and the gateway still has its shape. */
  ghost predicate StillBounded(view: View, n: Names, boundary: Boundary, script: nat -> Reply, start: nat) {
    && ThreeSucceed(view, script, start)
    && NetworksSeen(view, n, Output(script(start)), Output(script(start + 1)))
       == Some((boundary.internal, boundary.external))
    && view.gateway(Output(script(start + 2)), false).Some?
  }

  /** How many inspections after the broker are issued: one that raises is the last. */
  function PostCount(view: View, script: nat -> Reply, start: nat): (n: nat)
    ensures 1 <= n <= 3
  {
    if !Measured(view, script(start)) then 1 else if !Measured(view, script(start + 1)) then 2 else 3
  }

  function PostEvents(view: View, n: Names, script: nat -> Reply, start: nat): seq<Event> {
    Replay(script, start, n.Inspections()[..PostCount(view, script, start)])
  }

  /** The networks are as attested, so the gateway is read, and reading it crashes. */
  ghost predicate PostCrashes(view: View, n: Names, boundary: Boundary, script: nat -> Reply, start: nat) {
    && ThreeSucceed(view, script, start)
    && NetworksSeen(view, n, Output(script(start)), Output(script(start + 1)))
       == Some((boundary.internal, boundary.external))
    && view.Read(Output(script(start + 2)), false) == Crashed
  }

  lemma {:induction false} PostIsHarmless(
    view: View, n: Names, script: nat -> Reply, start: nat, before: seq<Event>, target: Target)
    ensures var after := before + PostEvents(view, n, script, start);
            && Harmless(after, |before|) && NoRemovals(after, |before|)
            && !Attempted(after, |before|, target, view)
  {
  }

  /** The commands of an exit: inspect all, remove each as owned, prove all absent. */
  function ExitCommands(n: Names): seq<Command> {
    n.Inspections() + (n.Removals() + n.Preflight())
  }

  /** The twelve answers from `start` that let an exit return. */
  ghost predicate ExitAnswers(view: View, n: Names, boundary: Boundary, script: nat -> Reply, start: nat) {
    && StillBounded(view, n, boundary, script, start)
    && RemovedFirst(view, n, script, start + 3, 3)
    && ThreeSilent(view, script, start + 9)
  }

  datatype Inspected = Inspected(ok: bool) | PostCrash

  /** A post-inspection as a clean-up asks for it: nothing is compared without an attested boundary. */
  datatype PostCheck = PostCheck(
    view: View, names: Names, boundary: Option<Boundary>, required: bool, earlier: seq<Event>)
  {
    function Issued(script: nat -> Reply, start: nat): seq<Event> {
      if required && boundary.Some? then PostEvents(view, names, script, start) else []
    }

    ghost predicate Crashes(script: nat -> Reply, start: nat) {
      && required && boundary.Some? && ExitedZero(earlier)
      && PostCrashes(view, names, boundary.value, script, start)
    }

    ghost predicate Passes(script: nat -> Reply, start: nat) {
      required ==>
        && boundary.Some? && ExitedZero(earlier)
        && StillBounded(view, names, boundary.value, script, start)
    }

    /** Where the teardown begins. */
    function Mid(script: nat -> Reply, start: nat): nat {
      start + |Issued(script, start)|
    }

    /** Everything a clean-up issues: a crash lets nothing follow the inspections. */
    ghost function Trace(script: nat -> Reply, start: nat, targets: seq<Target>): seq<Event> {
      if Crashes(script, start) then Issued(script, start)
      else Issued(script, start) + TeardownEvents(view, script, Mid(script, start), targets)
    }

    ghost function Outcome(script: nat -> Reply, start: nat, targets: seq<Target>): Inspected {
      if Crashes(script, start) then PostCrash
      else Inspected(Passes(script, start) && TeardownOk(view, script, Mid(script, start), targets))
    }
  }

  /** The records a session keeps of its exit. */
  datatype ExitLog = ExitLog(post: seq<Event>, cleanup: seq<Event>, absence: seq<Event>)
  {
    /** These and what a clean clean-up adds to them: all of its answers. */
    ghost predicate Grown(
      later: ExitLog, view: View, n: Names, script: nat -> Reply, targets: seq<Target>, posted: bool,
      start: nat, mid: nat)
    {
      var removals := CleanEvents(view, script, mid, targets);
      && later.cleanup == cleanup + removals
      && later.absence == absence + Replay(script, mid + |removals|, Absences(targets))
      && later.post == if posted then post + Replay(script, start, n.Inspections()) else post
    }
  }

  datatype EnterResult = Active | ProvisioningFailed | EnterCleanupFailed | EnterNotReusable

  datatype Cleaned = Clean(ok: bool) | EvidenceRefused | PostInspectionCrashed

  datatype ExitResult = Returned | CleanupFailed | NotReusable | Escaped

  class Session {
    const view: View
    const names: Names
    const runtime: Runtime
    var backend: Option<Backend>
    var createdInternal: bool
    var createdExternal: bool
    var createdGateway: bool
    var entered: bool
    var closed: bool
    var provisioning: seq<Event>
    var post: seq<Event>
    var cleanup: seq<Event>
    var absence: seq<Event>
    var boundary: Option<Boundary>

    constructor (view: View, names: Names, runtime: Runtime)
      ensures this.view == view && this.names == names && this.runtime == runtime
      ensures !entered && !closed && Valid()
    {
      this.view, this.names, this.runtime := view, names, runtime;
      backend, boundary := None, None;
      createdInternal, createdExternal, createdGateway := false, false, false;
      entered, closed := false, false;
      provisioning, post, cleanup, absence := [], [], [], [];
    }

    function CreatedFlags(): Created
      reads this`createdGateway, this`createdInternal, this`createdExternal
    {
      Created(createdGateway, createdInternal, createdExternal)
    }

    /** An open session has either not been entered or owns everything it provisioned. */
    ghost predicate Valid()
      reads this
    {
      && (backend.None? ==> boundary.None?)
      && (!entered ==> backend.None? && provisioning == [] && post == [] && cleanup == [] && absence == [])
      && (entered && !closed ==> backend.Some? && boundary.Some? && CreatedFlags().All())
    }

    /** Three absence probes, all of them before any is judged. */
    method Preflight() returns (ok: bool)
      modifies this`provisioning, runtime
      ensures old(runtime.trace) <= runtime.trace && NoRemovals(runtime.trace, |old(runtime.trace)|)
      ensures Harmless(runtime.trace, |old(runtime.trace)|)
      ensures ok <==> ThreeSilent(view, runtime.script, |old(runtime.trace)|)
      ensures ok ==>
                var events := Replay(runtime.script, |old(runtime.trace)|, names.Preflight());
                && runtime.trace == old(runtime.trace) + events
                && provisioning == old(provisioning) + events
    {
      var a := Run(runtime, Absence(names.GatewayTarget()));
      if !Measured(view, a.reply) { return false; }
      var b := Run(runtime, Absence(names.InternalTarget()));
      if !Measured(view, b.reply) { return false; }
      var c := Run(runtime, Absence(names.ExternalTarget()));
      if !Measured(view, c.reply) || !Silent(view, a.reply) || !Silent(view, b.reply) || !Silent(view, c.reply) {
        return false;
      }
      provisioning := provisioning + [a, b, c];
      assert Replay(runtime.script, |old(runtime.trace)|, names.Preflight()) == [a, b, c];
      return true;
    }

    /** One provisioning command that must succeed before its record is kept. */
    method Require(command: Command) returns (ok: bool)
      modifies this`provisioning, runtime
      ensures var event := Event(command, runtime.script(|old(runtime.trace)|));
              && runtime.trace == old(runtime.trace) + [event]
              && (ok <==> Succeeded(view, event.reply))
              && provisioning == old(provisioning) + if ok then [event] else []
    {
      var event := Run(runtime, command);
      ok := Succeeded(view, event.reply);
      if ok {
        provisioning := provisioning + [event];
      }
    }

    /** Each ownership flag is raised before the command that may create the resource. */
    method CreateNetworks() returns (ok: bool)
      modifies this`provisioning, this`createdInternal, this`createdExternal, runtime
      ensures old(runtime.trace) <= runtime.trace && NoRemovals(runtime.trace, |old(runtime.trace)|)
      ensures createdInternal && Covered(runtime.trace, |old(runtime.trace)|, CreatedFlags(), names)
      ensures old(createdExternal) ==> createdExternal
      ensures ok <==> TwoSucceed(view, runtime.script, |old(runtime.trace)|)
      ensures ok ==>
                var events := Replay(runtime.script, |old(runtime.trace)|, names.NetworkCreations());
                && runtime.trace == old(runtime.trace) + events
                && provisioning == old(provisioning) + events
                && createdInternal && createdExternal
    {
      CreatedTargets(Created(createdGateway, true, createdExternal), names);
      CreatedTargets(Created(createdGateway, true, true), names);
      createdInternal := true;
      ok := Require(CreateNetwork(names.InternalTarget(), true, names.labels));
      if !ok { return; }
      createdExternal := true;
      ok := Require(CreateNetwork(names.ExternalTarget(), false, names.labels));
      if !ok { return; }
      assert runtime.trace[|old(runtime.trace)|..]
          == Replay(runtime.script, |old(runtime.trace)|, names.NetworkCreations());
    }

    method CreateGateway() returns (ok: bool)
      modifies this`provisioning, this`createdGateway, runtime
      ensures old(runtime.trace) <= runtime.trace && NoRemovals(runtime.trace, |old(runtime.trace)|)
      ensures createdGateway && Covered(runtime.trace, |old(runtime.trace)|, CreatedFlags(), names)
      ensures ok <==> TwoSucceed(view, runtime.script, |old(runtime.trace)|)
      ensures ok ==>
                var events := Replay(runtime.script, |old(runtime.trace)|, names.GatewayCreations());
                && runtime.trace == old(runtime.trace) + events
                && provisioning == old(provisioning) + events
                && createdGateway
    {
      CreatedTargets(Created(true, createdInternal, createdExternal), names);
      createdGateway := true;
      ok := Require(RunGateway(names.GatewayTarget(), names.externalNetwork, names.image, names.labels));
      if !ok { return; }
      ok := Require(Connect(names.internalNetwork, names.gateway));
      if !ok { return; }
      assert runtime.trace[|old(runtime.trace)|..]
          == Replay(runtime.script, |old(runtime.trace)|, names.GatewayCreations());
    }

    method Create() returns (ok: bool)
      modifies this`provisioning, this`createdInternal, this`createdExternal, this`createdGateway, runtime
      ensures old(runtime.trace) <= runtime.trace && NoRemovals(runtime.trace, |old(runtime.trace)|)
      ensures Covered(runtime.trace, |old(runtime.trace)|, CreatedFlags(), names)
      ensures ok <==> FourSucceed(view, runtime.script, |old(runtime.trace)|)
      ensures ok ==>
                var events := Replay(runtime.script, |old(runtime.trace)|, names.Creations());
                && runtime.trace == old(runtime.trace) + events
                && provisioning == old(provisioning) + events
                && CreatedFlags().All()
    {
      ok := CreateNetworks();
      if !ok { return; }
      ghost var networks, earlier := runtime.trace, CreatedFlags();
      ReplayConcat(runtime.script, |old(runtime.trace)|, names.NetworkCreations(), names.GatewayCreations());
      ok := CreateGateway();
      CreatedTargets(earlier, names);
      CreatedTargets(CreatedFlags(), names);
      CoveredExtend(networks, runtime.trace, |old(runtime.trace)|, earlier, CreatedFlags(), names);
    }

    method InspectCreated() returns (ok: bool)
      modifies this`provisioning, runtime
      ensures old(runtime.trace) <= runtime.trace && NoRemovals(runtime.trace, |old(runtime.trace)|)
      ensures Harmless(runtime.trace, |old(runtime.trace)|)
      ensures ok <==> ThreeSucceed(view, runtime.script, |old(runtime.trace)|)
      ensures ok ==>
                var events := Replay(runtime.script, |old(runtime.trace)|, names.Inspections());
                && runtime.trace == old(runtime.trace) + events
                && provisioning == old(provisioning) + events
    {
      ok := Require(Inspection(names.InternalTarget()));
      if !ok { return; }
      ok := Require(Inspection(names.ExternalTarget()));
      if !ok { return; }
      ok := Require(Inspection(names.GatewayTarget()));
      if !ok { return; }
      assert runtime.trace[|old(runtime.trace)|..]
          == Replay(runtime.script, |old(runtime.trace)|, names.Inspections());
      assert provisioning[|old(provisioning)|..]
          == Replay(runtime.script, |old(runtime.trace)|, names.Inspections());
    }

    method IssueProvisioning() returns (ok: bool)
      requires provisioning == []
      modifies this`provisioning, this`createdInternal, this`createdExternal, this`createdGateway, runtime
      ensures old(runtime.trace) <= runtime.trace && NoRemovals(runtime.trace, |old(runtime.trace)|)
      ensures Covered(runtime.trace, |old(runtime.trace)|, CreatedFlags(), names)
      ensures ok <==> TenSucceed(view, runtime.script, |old(runtime.trace)|)
      ensures ok ==>
                && CreatedFlags().All()
                && provisioning == Replay(runtime.script, |old(runtime.trace)|, names.Provisioning())
                && runtime.trace == old(runtime.trace) + provisioning
    {
      ghost var start := |runtime.trace|;
      ok := Preflight();
      if !ok { return; }
      ghost var probed := runtime.trace;
      ok := Create();
      CoveredExtend(probed, runtime.trace, start, CreatedFlags(), CreatedFlags(), names);
      if !ok { return; }
      ghost var made := runtime.trace;
      ok := InspectCreated();
      CoveredExtend(made, runtime.trace, start, CreatedFlags(), CreatedFlags(), names);
      if !ok { return; }
      ReplayConcat(runtime.script, start, names.Preflight(), names.Creations());
      ReplayConcat(runtime.script, start, names.Preflight() + names.Creations(), names.Inspections());
    }

    /** Validates the last three provisioning records. */
    method Attest() returns (ok: bool)
      requires |provisioning| == 10
      modifies this`boundary
      ensures boundary == BoundarySeen(view, names, Output(provisioning[7].reply),
                                       Output(provisioning[8].reply), Output(provisioning[9].reply))
      ensures ok <==> boundary.Some?
    {
      boundary := BoundarySeen(view, names, Output(provisioning[7].reply),
                               Output(provisioning[8].reply), Output(provisioning[9].reply));
      ok := boundary.Some?;
    }

    /** Provisioning returns exactly when all ten commands succeed and attest a boundary. */
    method Provision(detected: Option<Backend>, policyOk: bool) returns (ok: bool)
      requires backend.None? && boundary.None? && provisioning == []
      modifies this`backend, this`boundary, this`provisioning, this`createdInternal,
               this`createdExternal, this`createdGateway, runtime
      ensures old(runtime.trace) <= runtime.trace && NoRemovals(runtime.trace, |old(runtime.trace)|)
      ensures Covered(runtime.trace, |old(runtime.trace)|, CreatedFlags(), names)
      ensures backend.None? ==> runtime.trace == old(runtime.trace)
      ensures backend == if policyOk then detected else None
      ensures boundary == if ok then Attested(view, names, runtime.script, |old(runtime.trace)|) else None
      ensures ok <==> detected.Some? && policyOk
                      && Attested(view, names, runtime.script, |old(runtime.trace)|).Some?
      ensures ok ==>
                && CreatedFlags().All()
                && provisioning == Replay(runtime.script, |old(runtime.trace)|, names.Provisioning())
                && runtime.trace == old(runtime.trace) + provisioning
    {
      if detected.None? || !policyOk {
        backend := if policyOk then detected else None;
        return false;
      }
      backend := detected;
      ok := IssueProvisioning();
      if ok {
        AttestedRecords(view, names, runtime.script, |old(runtime.trace)|);
        ok := Attest();
      }
    }

    /**
     Inspects all three again, then compares the networks with the attested boundary and reads the
     gateway.  Only the validators' own error is caught here.
     */
    method PostInspect() returns (result: Inspected)
      requires backend.Some? && boundary.Some?
      modifies this`post, runtime
      ensures runtime.trace
           == old(runtime.trace) + PostEvents(view, names, runtime.script, |old(runtime.trace)|)
      ensures result == PostCrash <==>
                && ExitedZero(old(post))
                && PostCrashes(view, names, boundary.value, runtime.script, |old(runtime.trace)|)
      ensures result == Inspected(true) <==>
                && ExitedZero(old(post))
                && StillBounded(view, names, boundary.value, runtime.script, |old(runtime.trace)|)
      ensures result == Inspected(true) ==>
                post == old(post) + Replay(runtime.script, |old(runtime.trace)|, names.Inspections())
    {
      ghost var start := |runtime.trace|;
      ghost var all := names.Inspections();
      var a := Run(runtime, Inspection(names.InternalTarget()));
      assert all[..1] == [all[0]] && all[..2] == [all[0], all[1]] && all[..3] == all;
      if !Measured(view, a.reply) { return Inspected(false); }
      var b := Run(runtime, Inspection(names.ExternalTarget()));
      if !Measured(view, b.reply) { return Inspected(false); }
      var c := Run(runtime, Inspection(names.GatewayTarget()));
      if !Measured(view, c.reply) { return Inspected(false); }
      assert Replay(runtime.script, start, names.Inspections()) == [a, b, c];
      ghost var earlier := post;
      post := post + [a, b, c];
      ZeroOfThree(earlier, a, b, c);
      if !ExitedZero(post) {
        return Inspected(false);
      }
      if NetworksSeen(view, names, Output(a.reply), Output(b.reply))
         != Some((boundary.value.internal, boundary.value.external))
      {
        return Inspected(false);
      }
      match view.Read(Output(c.reply), false) {
        case Accepted(_) => return Inspected(true);
        case Refused => return Inspected(false);
        case Crashed => return PostCrash;
      }
    }

    ghost predicate NoRecordMarked()
      reads this`provisioning, this`post, this`cleanup, this`absence
    {
      !AnyMarked(provisioning) && !AnyMarked(post) && !AnyMarked(cleanup) && !AnyMarked(absence)
    }

    method RemoveAndVerify() returns (ok: bool)
      modifies this`cleanup, this`absence, runtime
      ensures runtime.trace == old(runtime.trace)
                + TeardownEvents(view, runtime.script, |old(runtime.trace)|, CreatedFlags().Of(names))
      ensures ok <==> TeardownOk(view, runtime.script, |old(runtime.trace)|, CreatedFlags().Of(names))
      ensures ok ==>
                var targets := CreatedFlags().Of(names);
                var removals := CleanEvents(view, runtime.script, |old(runtime.trace)|, targets);
                && cleanup == old(cleanup) + removals
                && absence == old(absence)
                     + Replay(runtime.script, |old(runtime.trace)| + |removals|, Absences(targets))
    {
      var removals, absences;
      ok, removals, absences := TakeDown(view, names, runtime, CreatedFlags());
      cleanup, absence := cleanup + removals, absence + absences;
    }

    ghost function Check(requirePost: bool): PostCheck
      reads this`boundary, this`post
    {
      PostCheck(view, names, boundary, requirePost, post)
    }

    /** The post-inspection when it is due; without a boundary it fails without a command. */
    method InspectAgain(requirePost: bool) returns (result: Inspected)
      requires backend.Some?
      modifies this`post, runtime
      ensures runtime.trace
           == old(runtime.trace) + old(Check(requirePost)).Issued(runtime.script, |old(runtime.trace)|)
      ensures result == PostCrash <==> old(Check(requirePost)).Crashes(runtime.script, |old(runtime.trace)|)
      ensures result == Inspected(true) <==> old(Check(requirePost)).Passes(runtime.script, |old(runtime.trace)|)
      ensures result == Inspected(true) ==>
                post == if requirePost
                        then old(post) + Replay(runtime.script, |old(runtime.trace)|, names.Inspections())
                        else old(post)
    {
      if !requirePost {
        return Inspected(true);
      }
      if boundary.None? {
        return Inspected(false);
      }
      result := PostInspect();
    }

    /**
     Removal and absence run for everything that may exist, whatever failed before them, unless the
     post-inspection crashes: then nothing is removed or probed.
     */
    method IssueCleanup(requirePost: bool) returns (result: Inspected)
      requires backend.Some?
      modifies this`post, this`cleanup, this`absence, runtime
      ensures var check, start, targets := old(Check(requirePost)), |old(runtime.trace)|, CreatedFlags().Of(names);
              && runtime.trace == old(runtime.trace) + check.Trace(runtime.script, start, targets)
              && result == check.Outcome(runtime.script, start, targets)
              && (result == Inspected(true) ==>
                    old(Log()).Grown(Log(), view, names, runtime.script, targets, requirePost, start,
                                     check.Mid(runtime.script, start)))
    {
      ghost var check, start := Check(requirePost), |runtime.trace|;
      result := InspectAgain(requirePost);
      ghost var mid := check.Mid(runtime.script, start);
      assert |runtime.trace| == mid;
      if result != PostCrash {
        var ok := RemoveAndVerify();
        Rejoin(old(runtime.trace), check.Issued(runtime.script, start),
               TeardownEvents(view, runtime.script, mid, CreatedFlags().Of(names)));
        result := Inspected(result.ok && ok);
      }
    }

    predicate EvidenceMarked()
      reads this`provisioning, this`post, this`cleanup, this`absence
    {
      AnyMarked(provisioning) || AnyMarked(post) || AnyMarked(cleanup) || AnyMarked(absence)
    }

    function Log(): ExitLog
      reads this`post, this`cleanup, this`absence
    {
      ExitLog(post, cleanup, absence)
    }

    /**
     The runtime is detected again and the evidence hashed once everything was attempted; a crash of
     the post-inspection escapes before any of that.
     */
    method Cleanup(requirePost: bool, after: Option<Backend>) returns (result: Cleaned)
      requires backend.Some?
      modifies this`post, this`cleanup, this`absence, runtime
      ensures var check, start, targets := old(Check(requirePost)), |old(runtime.trace)|, CreatedFlags().Of(names);
              var outcome := check.Outcome(runtime.script, start, targets);
              && runtime.trace == old(runtime.trace) + check.Trace(runtime.script, start, targets)
              && (result == PostInspectionCrashed <==> outcome == PostCrash)
              && (result == Clean(true) <==>
                    outcome == Inspected(true) && after == backend && (boundary.Some? ==> NoRecordMarked()))
              && (result == Clean(true) ==>
                    old(Log()).Grown(Log(), view, names, runtime.script, targets, requirePost, start,
                                     check.Mid(runtime.script, start)))
      ensures boundary.None? ==> result.Clean? || result == PostInspectionCrashed
    {
      var inspected := IssueCleanup(requirePost);
      result := if inspected == PostCrash then PostInspectionCrashed
                else if boundary.Some? && after.Some? && EvidenceMarked() then EvidenceRefused
                else Clean(inspected.ok && after == backend);
    }

    /** Gives up after a failed provisioning that began at `start`. */
    method Abandon(after: Option<Backend>, ghost start: nat) returns (result: EnterResult)
      requires backend.Some? && start <= |runtime.trace| && NoRemovals(runtime.trace, start)
      requires Covered(runtime.trace, start, CreatedFlags(), names)
      modifies this`closed, this`post, this`cleanup, this`absence, runtime
      ensures closed
      ensures var events := TeardownEvents(view, runtime.script, |old(runtime.trace)|, CreatedFlags().Of(names));
              runtime.trace == old(runtime.trace) + events
      ensures OwnedRemovals(runtime.trace, start, view) && NothingLeft(runtime.trace, start, view)
      ensures result == ProvisioningFailed || result == EnterCleanupFailed
      ensures boundary.None? ==>
                (result == ProvisioningFailed <==>
                   && TeardownOk(view, runtime.script, |old(runtime.trace)|, CreatedFlags().Of(names))
                   && after == backend)
    {
      ghost var failed := runtime.trace;
      var cleaned := Cleanup(false, after);
      closed := true;
      assert [] + TeardownEvents(view, runtime.script, |failed|, CreatedFlags().Of(names))
          == TeardownEvents(view, runtime.script, |failed|, CreatedFlags().Of(names));
      TakenDown(view, names, runtime.script, failed, start, CreatedFlags());
      TeardownIsOwned(view, runtime.script, |failed|, CreatedFlags().Of(names), failed);
      OwnedRemovalsExtend(failed, runtime.trace, start, view);
      result := if cleaned == Clean(true) then ProvisioningFailed else EnterCleanupFailed;
    }

    /**
     Entering provisions everything, or takes down all it may have created and fails: nothing created
     is left without an inspection and an absence probe.  `mid` is where the taking down begins.
     */
    method Enter(detected: Option<Backend>, policyOk: bool, after: Option<Backend>)
      returns (result: EnterResult, ghost mid: nat)
      requires Valid()
      modifies this, runtime
      ensures Valid()
      ensures |old(runtime.trace)| <= mid <= |runtime.trace| && old(runtime.trace) <= runtime.trace
      ensures OwnedRemovals(runtime.trace, |old(runtime.trace)|, view)
      ensures result == EnterNotReusable <==> old(entered) || old(closed)
      ensures result == EnterNotReusable ==> runtime.trace == old(runtime.trace)
      ensures result == Active <==>
                && !old(entered) && !old(closed) && detected.Some? && policyOk
                && Attested(view, names, runtime.script, |old(runtime.trace)|).Some?
      ensures result == Active ==>
                && entered && !closed && backend == detected
                && boundary == Attested(view, names, runtime.script, |old(runtime.trace)|)
                && provisioning == Replay(runtime.script, |old(runtime.trace)|, names.Provisioning())
                && runtime.trace == old(runtime.trace) + provisioning
                && post == [] && cleanup == [] && absence == []
      ensures result == ProvisioningFailed || result == EnterCleanupFailed ==>
                closed && NothingLeft(runtime.trace, |old(runtime.trace)|, view)
      ensures result == ProvisioningFailed && backend.None? ==> runtime.trace == old(runtime.trace)
      ensures (result == ProvisioningFailed && backend.Some?) || result == EnterCleanupFailed ==>
                && runtime.trace[mid..] == TeardownEvents(view, runtime.script, mid, CreatedFlags().Of(names))
                && (result == ProvisioningFailed <==>
                      TeardownOk(view, runtime.script, mid, CreatedFlags().Of(names)) && after == backend)
    {
      mid := |runtime.trace|;
      if entered || closed {
        return EnterNotReusable, mid;
      }
      entered := true;
      var ok := Provision(detected, policyOk);
      if ok {
        return Active, mid;
      }
      if backend.None? {
        closed := true;  // no runtime was detected, so nothing was created
        return ProvisioningFailed, mid;
      }
      mid := |runtime.trace|;
      result := Abandon(after, |old(runtime.trace)|);
    }

    /** The clean-up of an entered session, in terms of its parts. */
    method Close(after: Option<Backend>) returns (result: ExitResult)
      requires Valid() && entered && !closed
      modifies this`closed, this`post, this`cleanup, this`absence, runtime
      ensures var check, start := old(Check(true)), |old(runtime.trace)|;
              var outcome := check.Outcome(runtime.script, start, names.Targets());
              && runtime.trace == old(runtime.trace) + check.Trace(runtime.script, start, names.Targets())
              && (result == Escaped <==> outcome == PostCrash)
              && (result == Returned <==> outcome == Inspected(true) && after == backend && NoRecordMarked())
              && (result == Returned ==>
                    old(Log()).Grown(Log(), view, names, runtime.script, names.Targets(), true, start,
                                     check.Mid(runtime.script, start)))
      ensures result == Returned || result == CleanupFailed || result == Escaped
      ensures (result == Escaped ==> !closed) && (result == Returned ==> closed)
    {
      CreatedTargets(CreatedFlags(), names);
      var cleaned := Cleanup(true, after);
      closed := cleaned.Clean?;  // an error raised while hashing also leaves the session open
      result := if cleaned == PostInspectionCrashed then Escaped
                else if cleaned == Clean(true) then Returned else CleanupFailed;
    }

    /** The clean-up of an entered session, in terms of the answers that let it return. */
    method Leave(after: Option<Backend>) returns (result: ExitResult)
      requires Valid() && entered && !closed
      modifies this`closed, this`post, this`cleanup, this`absence, runtime
      ensures result == Escaped <==> old(ExitCrashes())
      ensures result == Returned || result == CleanupFailed || result == Escaped
      ensures (result == Escaped ==> !closed) && (result == Returned ==> closed)
      ensures runtime.trace == old(runtime.trace)
                + old(Check(true)).Trace(runtime.script, |old(runtime.trace)|, names.Targets())
      ensures result == Returned <==>
                && ExitedZero(old(post))
                && ExitAnswers(view, names, boundary.value, runtime.script, |old(runtime.trace)|)
                && after == backend && NoRecordMarked()
      ensures result == Returned ==>
                && runtime.trace == old(runtime.trace)
                     + Replay(runtime.script, |old(runtime.trace)|, ExitCommands(names))
                && post == old(post) + Replay(runtime.script, |old(runtime.trace)|, names.Inspections())
                && cleanup == old(cleanup) + Replay(runtime.script, |old(runtime.trace)| + 3, names.Removals())
                && absence == old(absence) + Replay(runtime.script, |old(runtime.trace)| + 9, names.Preflight())
    {
      ghost var check := Check(true);
      ExitMeaning(check, runtime.script, |runtime.trace|);
      result := Close(after);
    }

    /**
     Exiting returns normally exactly when the session was never entered, or all three resources were
     inspected unchanged, removed as owned and observed absent, on the runtime it started with, and no
     record names the credential.  Whatever fails, all three are attempted, unless the gateway's
     inspection crashes its validator: then that error escapes, nothing is removed or probed and the
     session stays open.
     */
    method Exit(after: Option<Backend>) returns (result: ExitResult)
      requires Valid()
      modifies this`closed, this`post, this`cleanup, this`absence, runtime
      ensures Valid()
      ensures old(runtime.trace) <= runtime.trace
      ensures OwnedRemovals(runtime.trace, |old(runtime.trace)|, view)
      ensures result == NotReusable <==> old(closed)
      ensures old(closed) || !entered ==> runtime.trace == old(runtime.trace)
      ensures !old(closed) && !entered ==> result == Returned
      ensures result == Escaped <==> old(ExitCrashes())
      ensures result == Escaped ==> !closed
      ensures !old(closed) && entered ==>
                && runtime.trace == old(runtime.trace)
                     + old(Check(true)).Trace(runtime.script, |old(runtime.trace)|, names.Targets())
                && (result != Escaped <==>
                      forall t :: t in names.Targets() ==> Attempted(runtime.trace, |old(runtime.trace)|, t, view))
      ensures !old(closed) && entered ==>
                (result == Returned <==>
                   && ExitedZero(old(post))
                   && ExitAnswers(view, names, boundary.value, runtime.script, |old(runtime.trace)|)
                   && after == backend
                   && NoRecordMarked())
      ensures entered && result == Returned ==>
                && runtime.trace == old(runtime.trace)
                     + Replay(runtime.script, |old(runtime.trace)|, ExitCommands(names))
                && post == old(post) + Replay(runtime.script, |old(runtime.trace)|, names.Inspections())
                && cleanup == old(cleanup) + Replay(runtime.script, |old(runtime.trace)| + 3, names.Removals())
                && absence == old(absence) + Replay(runtime.script, |old(runtime.trace)| + 9, names.Preflight())
      ensures result == Returned ==> closed
    {
      if closed {
        return NotReusable;
      }
      if backend.None? {
        closed := true;  // never entered: there is nothing to clean
        return Returned;
      }
      ExitAttempts(Check(true), runtime.script, runtime.trace);
      result := Leave(after);
    }

    /** Exiting now would let the post-inspection's crash escape. */
    ghost predicate ExitCrashes()
      reads this, runtime
    {
      && !closed && entered && ExitedZero(post) && boundary.Some?
      && PostCrashes(view, names, boundary.value, runtime.script, |runtime.trace|)
    }
  }

  /** What an exit issues attempts every resource exactly when the post-inspection does not crash. */
  lemma {:induction false} ExitAttempts(check: PostCheck, script: nat -> Reply, before: seq<Event>)
    requires check.required && check.boundary.Some?
    ensures var after := before + check.Trace(script, |before|, check.names.Targets());
            && before <= after && OwnedRemovals(after, |before|, check.view)
            && (!check.Crashes(script, |before|) <==>
                  forall t :: t in check.names.Targets() ==> Attempted(after, |before|, t, check.view))
  {
    var view, n := check.view, check.names;
    var inspected := before + PostEvents(view, n, script, |before|);
    PostIsHarmless(view, n, script, |before|, before, n.GatewayTarget());
    if check.Crashes(script, |before|) {
      assert n.GatewayTarget() in n.Targets();
    } else {
      var events := TeardownEvents(view, script, |inspected|, n.Targets());
      var after := inspected + events;
      Rejoin(before, PostEvents(view, n, script, |before|), events);
      TeardownIsOwned(view, script, |inspected|, n.Targets(), inspected);
      OwnedRemovalsExtend(inspected, after, |before|, view);
      forall t | t in n.Targets() ensures Attempted(after, |before|, t, view) {
        assert after[|inspected|..] == events;
        TeardownAttempts(view, script, |inspected|, n.Targets(), after, t);
        AttemptedEarlier(after, |before|, |inspected|, t, view);
      }
    }
  }

  /** After three answered inspections a successful exit is nine more expected answers. */
  lemma {:induction false} ExitTeardown(view: View, n: Names, script: nat -> Reply, start: nat)
    ensures ThreeSucceed(view, script, start) ==>
              PostEvents(view, n, script, start) == Replay(script, start, n.Inspections())
    ensures TeardownOk(view, script, start + 3, n.Targets())
       <==> RemovedFirst(view, n, script, start + 3, 3) && ThreeSilent(view, script, start + 9)
    ensures TeardownOk(view, script, start + 3, n.Targets()) ==>
              && CleanEvents(view, script, start + 3, n.Targets()) == Replay(script, start + 3, n.Removals())
              && Replay(script, start, n.Inspections()) + TeardownEvents(view, script, start + 3, n.Targets())
                 == Replay(script, start, ExitCommands(n))
    ensures Absences(n.Targets()) == n.Preflight()
  {
    assert n.Inspections()[..3] == n.Inspections();
    TeardownOfAll(view, n, script, start + 3);
    AllAbsences(n);
    ExitReplay(n, script, start);
  }

  /** A passed post-inspection and a complete teardown are exactly the twelve answers of an exit. */
  lemma {:induction false} ExitMeaning(check: PostCheck, script: nat -> Reply, start: nat)
    requires check.required && check.boundary.Some?
    ensures var n := check.names;
            check.Outcome(script, start, n.Targets()) == Inspected(true)
            <==> && ExitedZero(check.earlier)
                 && ExitAnswers(check.view, n, check.boundary.value, script, start)
    ensures check.Outcome(script, start, check.names.Targets()) == Inspected(true) ==>
              ExitIssued(check, script, start)
  {
    ExitTeardown(check.view, check.names, script, start);
    if check.Passes(script, start) {
      PassesAll(check, script, start);
    }
  }

  /** What a clean exit issued and kept. */
  ghost predicate ExitIssued(check: PostCheck, script: nat -> Reply, start: nat) {
    var n := check.names;
    && check.Mid(script, start) == start + 3
    && check.Trace(script, start, n.Targets()) == Replay(script, start, ExitCommands(n))
    && CleanEvents(check.view, script, start + 3, n.Targets()) == Replay(script, start + 3, n.Removals())
    && |CleanEvents(check.view, script, start + 3, n.Targets())| == 6
    && Absences(n.Targets()) == n.Preflight()
  }

  /** A passed post-inspection issued three commands and did not crash. */
  lemma {:induction false} PassesAll(check: PostCheck, script: nat -> Reply, start: nat)
    requires check.required && check.boundary.Some? && check.Passes(script, start)
    ensures check.Mid(script, start) == start + 3 && !check.Crashes(script, start)
    ensures check.Issued(script, start) == Replay(script, start, check.names.Inspections())
  {
    assert check.names.Inspections()[..3] == check.names.Inspections();
  }

  lemma {:induction false} AllAbsences(n: Names)
    ensures Absences(n.Targets()) == n.Preflight()
  {
  }

  lemma {:induction false} ExitReplay(n: Names, script: nat -> Reply, start: nat)
    ensures Replay(script, start, ExitCommands(n))
         == Replay(script, start, n.Inspections())
            + (Replay(script, start + 3, n.Removals()) + Replay(script, start + 9, n.Preflight()))
  {
    ReplayConcat(script, start, n.Inspections(), n.Removals() + n.Preflight());
    ReplayConcat(script, start + 3, n.Removals(), n.Preflight());
  }
}
