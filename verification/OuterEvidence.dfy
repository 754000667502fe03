/**
 The coordinator's independent re-derivation of an outer run, and exactly which successful runs it
 accepts.

 `probe` decides whether a runtime probe's output shows the prepared binding and `envelope` whether
 the broker's output is a valid response to the prepared request.
 */
module OuterEvidence {
  import opened Wrappers
  import opened Utf8
  import opened BrokerLedger
  import opened CanonicalJson
  import opened CanonicalOrder
  import opened Inspect
  import opened Lifecycle
  import opened Teardown
  import opened EgressSession
  import opened OuterExecution

  const CREDENTIAL_ASSIGNMENT := T("OPENAI_API_KEY=")
  const MAX_BROKER_MILLISECONDS := 300_000
  const MAX_BROKER_STDOUT := 6_000_000
  const MAX_BROKER_STDERR := 64_000

  /** What the prepared batch fixes before either process runs. */
  datatype Prepared = Prepared(
    backend: Backend, names: Names, launch: Launch, limits: Limits,
    fold: Text -> Text, probe: Bytes -> bool, envelope: Bytes -> bool)
  {
    predicate Bounded() {
      && limits.milliseconds <= MAX_BROKER_MILLISECONDS
      && limits.maxStdout <= MAX_BROKER_STDOUT
      && limits.maxStderr <= MAX_BROKER_STDERR
    }

    function View(): View { OuterView(fold, names) }
  }

  // ---------------------------------------------------------------- the coordinator's checks

  /** A recorded command decodes: bounded streams that never assign the credential. */
  predicate Decodes(event: Event) {
    && event.reply.Finished?
    && event.reply.duration <= MAX_BROKER_MILLISECONDS
    && |event.reply.stdout| <= MAX_BROKER_STDOUT
    && |event.reply.stderr| <= MAX_BROKER_STDERR
    && !Contains(event.reply.stdout, CREDENTIAL_ASSIGNMENT)
    && !Contains(event.reply.stderr, CREDENTIAL_ASSIGNMENT)
  }

  predicate AllDecode(events: seq<Event>) {
    forall i :: 0 <= i < |events| ==> Decodes(events[i])
  }

  /** The lifecycle digest refuses a record that names the credential or overran its time. */
  predicate AllHashable(events: seq<Event>) {
    forall i :: 0 <= i < |events| ==>
      && events[i].reply.Finished? && !Marked(events[i])
      && events[i].reply.duration <= MAX_COMMAND_MILLISECONDS
  }

  function Argvs(backend: Backend, events: seq<Event>): seq<Argv> {
    seq(|events|, i requires 0 <= i < |events| => OuterArgv(backend, events[i].command))
  }

  predicate ExpectedGroups(p: Prepared, e: RunEvidence) {
    && Argvs(p.backend, e.provisioning) == ProvisionArgv(p.backend, p.names)
    && Argvs(p.backend, e.post) == PostArgv(p.backend, p.names)
    && Argvs(p.backend, e.cleanup) == CleanupArgv(p.backend, p.names)
    && Argvs(p.backend, e.absence) == PreflightArgv(p.backend, p.names)
  }

  predicate AllSilent(events: seq<Event>) {
    forall i :: 0 <= i < |events| ==> Output(events[i].reply) == []
  }

  predicate ExpectedResults(e: RunEvidence) {
    && |e.provisioning| == 10 && |e.post| == 3 && |e.cleanup| == 6 && |e.absence| == 3
    && ExitedZero(e.provisioning) && ExitedZero(e.post) && ExitedZero(e.cleanup) && ExitedZero(e.absence)
    && AllSilent(e.provisioning[..3]) && AllSilent(e.absence)
  }

  /** Both inspections show the same owned boundary; only the first must show a running gateway. */
  predicate SameBoundary(view: View, n: Names, pre: seq<Bytes>, post: seq<Bytes>)
    requires |pre| == 3 && |post| == 3
  {
    var a := BoundarySeen(view, n, pre[0], pre[1], pre[2]);
    && a.Some?
    && NetworksSeen(view, n, post[0], post[1]) == Some((a.value.internal, a.value.external))
    && view.gateway(post[2], false) == Some(a.value.gateway)
  }

  function Outputs(events: seq<Event>): seq<Bytes> {
    seq(|events|, i requires 0 <= i < |events| => Output(events[i].reply))
  }

  predicate InspectionsHold(p: Prepared, pre: seq<Event>, post: seq<Event>)
    requires |pre| == 3 && |post| == 3
  {
    SameBoundary(CheckerView(p.fold, p.names), p.names, Outputs(pre), Outputs(post))
  }

  predicate RemovalsOwned(p: Prepared, cleanup: seq<Event>)
    requires |cleanup| == 6
  {
    && CheckerOwned(Output(cleanup[0].reply), p.names.GatewayTarget(), p.names.labels)
    && CheckerOwned(Output(cleanup[2].reply), p.names.InternalTarget(), p.names.labels)
    && CheckerOwned(Output(cleanup[4].reply), p.names.ExternalTarget(), p.names.labels)
  }

  predicate MeasurementDecodes(p: Prepared, m: Measurement) {
    && Decodes(m.command) && m.command.reply.exitCode == 0
    && OuterArgv(p.backend, m.command.command) == ProbeArgv(p.backend)
    && m.backend.device >= 0 && m.backend.inode > 0
    && m.backend.sha256 == p.backend.sha256 && m.backend.security == p.backend.security
    && p.probe(m.command.reply.stdout)
  }

  predicate BrokerHolds(p: Prepared, e: RunEvidence) {
    && Decodes(e.broker) && Decodes(e.brokerCleanup)
    && OuterArgv(p.backend, e.broker.command) == BrokerArgv(p.backend.executable, p.launch.descriptor)
    && e.broker.reply.exitCode == 0
    && |e.broker.reply.stdout| <= p.limits.maxStdout && |e.broker.reply.stderr| <= p.limits.maxStderr
    && OuterArgv(p.backend, e.brokerCleanup.command) == BrokerRemoveArgv(p.backend.executable, p.launch.container)
    && e.brokerCleanup.reply.exitCode == 0
    && e.clock.brokerStarted > 0
    && p.envelope(e.broker.reply.stdout)
  }

  /** `_construct_provisioned_evidence`, apart from the reservation. */
  predicate CheckerAccepts(p: Prepared, e: RunEvidence) {
    && e.names == p.names
    && MeasurementDecodes(p, e.before) && MeasurementDecodes(p, e.after)
    && e.before.backend.device == e.after.backend.device && e.before.backend.inode == e.after.backend.inode
    && AllDecode(e.provisioning) && AllDecode(e.post) && AllDecode(e.cleanup) && AllDecode(e.absence)
    && ExpectedGroups(p, e)
    && ExpectedResults(e)
    && InspectionsHold(p, e.provisioning[7..], e.post)
    && RemovalsOwned(p, e.cleanup)
    && AllHashable(e.provisioning) && AllHashable(e.post) && AllHashable(e.cleanup) && AllHashable(e.absence)
    && e.clock.started > 0 && 0 <= e.clock.duration <= 600_000
    && BrokerHolds(p, e)
  }

  // ---------------------------------------------------------------- what the producer guarantees

  predicate AllSucceeded(view: View, events: seq<Event>) {
    forall i :: 0 <= i < |events| ==> Succeeded(view, events[i].reply)
  }

  function Commands(events: seq<Event>): seq<Command> {
    seq(|events|, i requires 0 <= i < |events| => events[i].command)
  }

  function SeenIn(view: View, n: Names, events: seq<Event>): Option<Boundary>
    requires |events| == 3
  {
    BoundarySeen(view, n, Output(events[0].reply), Output(events[1].reply), Output(events[2].reply))
  }

  predicate RemovalsShown(view: View, n: Names, cleanup: seq<Event>)
    requires |cleanup| == 6
  {
    && view.owned(Output(cleanup[0].reply), n.GatewayTarget())
    && view.owned(Output(cleanup[2].reply), n.InternalTarget())
    && view.owned(Output(cleanup[4].reply), n.ExternalTarget())
  }

  /** The commands of a successful run. */
  predicate IssuedGroups(p: Prepared, e: RunEvidence) {
    && Commands(e.provisioning) == p.names.Provisioning()
    && Commands(e.post) == p.names.Inspections()
    && Commands(e.cleanup) == p.names.Removals()
    && Commands(e.absence) == p.names.Preflight()
    && e.broker.command == RunBroker(p.launch)
    && e.brokerCleanup.command == RemoveBroker(p.launch.container)
    && e.before.command.command == Probe && e.after.command.command == Probe
  }

  /** The answers of a successful run, read as `view` reads them. */
  predicate AnsweredGroups(view: View, n: Names, limits: Limits, e: RunEvidence) {
    && |e.provisioning| == 10 && |e.post| == 3 && |e.cleanup| == 6 && |e.absence| == 3
    && AllSucceeded(view, e.provisioning) && AllSucceeded(view, e.post)
    && AllSucceeded(view, e.cleanup) && AllSucceeded(view, e.absence)
    && AllSilent(e.provisioning[..3]) && AllSilent(e.absence)
    && SeenIn(view, n, e.provisioning[7..]).Some?
    && SeenIn(view, n, e.post) == SeenIn(view, n, e.provisioning[7..])
    && RemovalsShown(view, n, e.cleanup)
    && BrokerMeasured(limits, e.broker.reply) && e.broker.reply.exitCode == 0
    && Succeeded(view, e.brokerCleanup.reply)
    && ProbeAnswers(view, e.before.command.reply) && ProbeAnswers(view, e.after.command.reply)
    && e.before.backend == e.after.backend
  }

  /** What every run that yields evidence guarantees. */
  predicate ProducedRun(p: Prepared, e: RunEvidence) {
    e.names == p.names && IssuedGroups(p, e) && AnsweredGroups(p.View(), p.names, p.limits, e)
  }

  // ---------------------------------------------------------------- the exact difference

  predicate AssignsNothing(reply: Reply) {
    reply.Finished? ==>
      !Contains(reply.stdout, CREDENTIAL_ASSIGNMENT) && !Contains(reply.stderr, CREDENTIAL_ASSIGNMENT)
  }

  predicate NoneMarked(events: seq<Event>) {
    forall i :: 0 <= i < |events| ==> !Marked(events[i])
  }

  predicate Reencodes(raw: Bytes) {
    ParseOne(raw).Some? && CanonicalOne(ParseOne(raw).value).Some?
  }

  predicate RuntimeAsPrepared(p: Prepared, m: Measurement) {
    && m.backend.device >= 0 && m.backend.inode > 0
    && m.backend.sha256 == p.backend.sha256 && m.backend.security == p.backend.security
    && p.probe(Output(m.command.reply)) && AssignsNothing(m.command.reply)
  }

  /**
   What a successful run must satisfy beyond what the outer executor enforces: a running gateway whose
   option lists are JSON lists, no credential in any stream, times in bounds, a valid envelope, and
   clean-up inspections that can be re-encoded.
   */
  predicate AcceptConditions(p: Prepared, e: RunEvidence)
    requires |e.provisioning| == 10 && |e.cleanup| == 6
  {
    && RuntimeAsPrepared(p, e.before) && RuntimeAsPrepared(p, e.after)
    && ListsAndRunning(Output(e.provisioning[9].reply), true)
    && NoneMarked(e.provisioning) && NoneMarked(e.post) && NoneMarked(e.cleanup) && NoneMarked(e.absence)
    && AssignsNothing(e.broker.reply) && AssignsNothing(e.brokerCleanup.reply)
    && Reencodes(Output(e.cleanup[0].reply)) && Reencodes(Output(e.cleanup[2].reply))
    && Reencodes(Output(e.cleanup[4].reply))
    && e.clock.started > 0 && e.clock.duration <= 600_000 && e.clock.brokerStarted > 0
    && p.envelope(Output(e.broker.reply))
  }

  // ---------------------------------------------------------------- one inspection seen twice

  lemma {:induction false} EqualGet(a: Fields, b: Fields, key: Text)
    requires Equal(Obj(a), Obj(b))
    ensures Get(a, key).Some? <==> Get(b, key).Some?
    ensures Get(a, key).Some? ==> Equal(Get(a, key).value, Get(b, key).value)
  {
    if Index(b, key) < |b| {
      assert Index(a, b[Index(b, key)].key) < |a|;
    }
  }

  lemma {:induction false} EqualDictField(a: Fields, b: Fields, upper: Text, lower: Text)
    requires Equal(Obj(a), Obj(b))
    ensures DictField(a, upper, lower).Some? <==> DictField(b, upper, lower).Some?
    ensures DictField(a, upper, lower).Some? ==>
              Equal(Obj(DictField(a, upper, lower).value), Obj(DictField(b, upper, lower).value))
  {
    EqualGet(a, b, upper);
    EqualGet(a, b, lower);
  }

  lemma {:induction false} SameCanonicalEqual(a: Fields, b: Fields)
    requires Distinct(Obj(a)) && Distinct(Obj(b))
    requires CanonicalOne(a).Some? && CanonicalOne(a) == CanonicalOne(b)
    ensures Equal(Obj(a), Obj(b))
  {
    var v, w := Arr([Obj(a)]), Arr([Obj(b)]);
    AnyKeySortable(v);
    AnyKeySortable(w);
    DecodeEncode(Print(CodePoints, v));
    DecodeEncode(Print(CodePoints, w));
    PrintIdentifies(CodePoints, v, w);
    assert Equal(v.items[0], w.items[0]);
  }

  lemma {:induction false} ParsedDistinct(raw: Bytes)
    requires ParseOne(raw).Some?
    ensures Distinct(Obj(ParseOne(raw).value))
  {
    var v := Parse(Decode(raw).value).value;
    assert Distinct(v.items[0]);
  }

  /** Two inspections with the same canonical bytes agree on which options are lists. */
  lemma {:induction false} ListOptionsStable(fold: Text -> Text, a: Bytes, b: Bytes, shape: GatewayShape)
    requires OuterGateway(fold, a, shape).Some? && OuterGateway(fold, a, shape) == OuterGateway(fold, b, shape)
    requires ListsAndRunning(a, false)
    ensures ListsAndRunning(b, false)
  {
    var f, g := ParseOne(a).value, ParseOne(b).value;
    ParsedDistinct(a);
    ParsedDistinct(b);
    SameCanonicalEqual(f, g);
    EqualDictField(f, g, T("HostConfig"), T("hostConfig"));
    var h, k := GatewaySections(f).value.host, GatewaySections(g).value.host;
    EqualGet(h, k, T("CapDrop"));
    EqualGet(h, k, T("SecurityOpt"));
  }

  // ---------------------------------------------------------------- producer against checker

  lemma {:induction false} ArgvsRendered(backend: Backend, events: seq<Event>, commands: seq<Command>)
    requires Commands(events) == commands
    ensures Argvs(backend, events) == Rendered(backend, commands)
  {
    forall i | 0 <= i < |events| ensures events[i].command == commands[i] {
      assert Commands(events)[i] == commands[i];
    }
  }

  lemma {:induction false} IssuedAsExpected(p: Prepared, e: RunEvidence)
    requires IssuedGroups(p, e)
    ensures ExpectedGroups(p, e)
  {
    BuildersAgree(p.backend, p.names);
    ArgvsRendered(p.backend, e.provisioning, p.names.Provisioning());
    ArgvsRendered(p.backend, e.post, p.names.Inspections());
    ArgvsRendered(p.backend, e.cleanup, p.names.Removals());
    ArgvsRendered(p.backend, e.absence, p.names.Preflight());
  }

  lemma {:induction false} ContainsPrefix(bytes: Bytes, name: Bytes, assignment: Bytes)
    requires name <= assignment && Contains(bytes, assignment)
    ensures Contains(bytes, name)
  {
    if !(assignment <= bytes) {
      ContainsPrefix(bytes[1..], name, assignment);
    }
  }

  lemma {:induction false} UnmarkedAssignsNothing(event: Event)
    requires !Marked(event)
    ensures AssignsNothing(event.reply)
  {
    assert CREDENTIAL_NAME <= CREDENTIAL_ASSIGNMENT;
    if event.reply.Finished? {
      if Contains(event.reply.stdout, CREDENTIAL_ASSIGNMENT) {
        ContainsPrefix(event.reply.stdout, CREDENTIAL_NAME, CREDENTIAL_ASSIGNMENT);
      }
      if Contains(event.reply.stderr, CREDENTIAL_ASSIGNMENT) {
        ContainsPrefix(event.reply.stderr, CREDENTIAL_NAME, CREDENTIAL_ASSIGNMENT);
      }
    }
  }

  /** A successful record decodes and hashes exactly when it does not name the credential. */
  lemma {:induction false} GroupDecodes(p: Prepared, events: seq<Event>)
    requires AllSucceeded(p.View(), events)
    ensures AllDecode(events) && AllHashable(events) <==> NoneMarked(events)
    ensures ExitedZero(events)
  {
    forall i | 0 <= i < |events| && !Marked(events[i]) ensures Decodes(events[i]) {
      UnmarkedAssignsNothing(events[i]);
    }
  }

  lemma {:induction false} NetworkSeenByBoth(p: Prepared, target: Target, isInternal: bool, raw: Bytes)
    requires |raw| <= MAX_INSPECT_BYTES
    requires OuterView(p.fold, p.names).network(raw, target, isInternal).Some?
    ensures CheckerView(p.fold, p.names).network(raw, target, isInternal)
         == OuterView(p.fold, p.names).network(raw, target, isInternal)
  {
    ParsedSize(raw);
    OuterNetworkAccepted(raw, target, isInternal, p.names.gateway, p.names.labels);
  }

  lemma {:induction false} GatewaySeenByBoth(p: Prepared, raw: Bytes, requireRunning: bool)
    requires |raw| <= MAX_INSPECT_BYTES
    requires OuterView(p.fold, p.names).gateway(raw, true).Some?
    ensures CheckerView(p.fold, p.names).gateway(raw, requireRunning).Some?
       <==> ListsAndRunning(raw, requireRunning)
    ensures CheckerView(p.fold, p.names).gateway(raw, requireRunning).Some? ==>
              CheckerView(p.fold, p.names).gateway(raw, requireRunning)
              == OuterView(p.fold, p.names).gateway(raw, true)
  {
    ParsedSize(raw);
    OuterGatewayAccepted(p.fold, raw, p.names.Shape(), requireRunning);
  }

  /** Two views that read the networks alike, and the gateway alike when `accepted`. */
  lemma {:induction false} SameBoundaryAcrossViews(
    outer: View, checker: View, n: Names, pre: seq<Bytes>, post: seq<Bytes>, accepted: bool)
    requires |pre| == 3 && |post| == 3
    requires BoundarySeen(outer, n, pre[0], pre[1], pre[2]).Some?
    requires BoundarySeen(outer, n, post[0], post[1], post[2]) == BoundarySeen(outer, n, pre[0], pre[1], pre[2])
    requires NetworksSeen(checker, n, pre[0], pre[1]) == NetworksSeen(outer, n, pre[0], pre[1])
    requires NetworksSeen(checker, n, post[0], post[1]) == NetworksSeen(outer, n, post[0], post[1])
    requires checker.gateway(pre[2], true) == if accepted then outer.gateway(pre[2], true) else None
    requires accepted ==> checker.gateway(post[2], false) == outer.gateway(post[2], true)
    ensures SameBoundary(checker, n, pre, post) <==> accepted
  {
  }

  lemma {:induction false} NetworksSeenByBoth(p: Prepared, internal: Bytes, external: Bytes)
    requires |internal| <= MAX_INSPECT_BYTES && |external| <= MAX_INSPECT_BYTES
    requires NetworksSeen(OuterView(p.fold, p.names), p.names, internal, external).Some?
    ensures NetworksSeen(CheckerView(p.fold, p.names), p.names, internal, external)
         == NetworksSeen(OuterView(p.fold, p.names), p.names, internal, external)
  {
    NetworkSeenByBoth(p, p.names.InternalTarget(), true, internal);
    NetworkSeenByBoth(p, p.names.ExternalTarget(), false, external);
  }

  lemma {:induction false} GatewaysSeenByBoth(p: Prepared, pre: Bytes, post: Bytes)
    requires |pre| <= MAX_INSPECT_BYTES && |post| <= MAX_INSPECT_BYTES
    requires OuterView(p.fold, p.names).gateway(pre, true).Some?
    requires OuterView(p.fold, p.names).gateway(post, true) == OuterView(p.fold, p.names).gateway(pre, true)
    ensures var accepted := ListsAndRunning(pre, true);
            && CheckerView(p.fold, p.names).gateway(pre, true)
               == (if accepted then OuterView(p.fold, p.names).gateway(pre, true) else None)
            && (accepted ==> CheckerView(p.fold, p.names).gateway(post, false)
                             == OuterView(p.fold, p.names).gateway(post, true))
  {
    GatewaySeenByBoth(p, pre, true);
    GatewaySeenByBoth(p, post, false);
    if ListsAndRunning(pre, true) {
      ListOptionsStable(p.fold, pre, post, p.names.Shape());
    }
  }

  lemma {:induction false} BoundaryParts(view: View, n: Names, a: seq<Bytes>, b: seq<Bytes>)
    requires |a| == 3 && |b| == 3
    requires BoundarySeen(view, n, a[0], a[1], a[2]).Some?
    requires BoundarySeen(view, n, b[0], b[1], b[2]) == BoundarySeen(view, n, a[0], a[1], a[2])
    ensures NetworksSeen(view, n, a[0], a[1]).Some? && NetworksSeen(view, n, b[0], b[1]).Some?
    ensures view.gateway(a[2], true).Some? && view.gateway(b[2], true) == view.gateway(a[2], true)
  {
  }

  lemma {:induction false} BothInspectionsHold(p: Prepared, pre: seq<Event>, post: seq<Event>)
    requires |pre| == 3 && |post| == 3
    requires AllSucceeded(p.View(), pre) && AllSucceeded(p.View(), post)
    requires SeenIn(p.View(), p.names, pre).Some?
    requires SeenIn(p.View(), p.names, post) == SeenIn(p.View(), p.names, pre)
    ensures InspectionsHold(p, pre, post) <==> ListsAndRunning(Output(pre[2].reply), true)
  {
    var a, b := Outputs(pre), Outputs(post);
    BoundaryParts(p.View(), p.names, a, b);
    NetworksSeenByBoth(p, a[0], a[1]);
    NetworksSeenByBoth(p, b[0], b[1]);
    GatewaysSeenByBoth(p, a[2], b[2]);
    SameBoundaryAcrossViews(p.View(), CheckerView(p.fold, p.names), p.names, a, b, ListsAndRunning(a[2], true));
  }

  lemma {:induction false} OwnedByBoth(p: Prepared, event: Event, target: Target)
    requires Succeeded(p.View(), event.reply) && p.View().owned(Output(event.reply), target)
    ensures CheckerOwned(Output(event.reply), target, p.names.labels) <==> Reencodes(Output(event.reply))
  {
    ParsedSize(Output(event.reply));
    OuterOwnedAccepted(Output(event.reply), target, p.names.labels);
  }

  lemma {:induction false} RemovalsByBoth(p: Prepared, cleanup: seq<Event>)
    requires |cleanup| == 6 && AllSucceeded(p.View(), cleanup) && RemovalsShown(p.View(), p.names, cleanup)
    ensures RemovalsOwned(p, cleanup)
       <==> && Reencodes(Output(cleanup[0].reply)) && Reencodes(Output(cleanup[2].reply))
            && Reencodes(Output(cleanup[4].reply))
  {
    OwnedByBoth(p, cleanup[0], p.names.GatewayTarget());
    OwnedByBoth(p, cleanup[2], p.names.InternalTarget());
    OwnedByBoth(p, cleanup[4], p.names.ExternalTarget());
  }

  lemma {:induction false} BrokerByBoth(p: Prepared, e: RunEvidence)
    requires p.Bounded()
    requires e.broker.command == RunBroker(p.launch)
    requires e.brokerCleanup.command == RemoveBroker(p.launch.container)
    requires BrokerMeasured(p.limits, e.broker.reply) && e.broker.reply.exitCode == 0
    requires Measured(p.View(), e.brokerCleanup.reply) && e.brokerCleanup.reply.exitCode == 0
    ensures BrokerHolds(p, e)
       <==> && AssignsNothing(e.broker.reply) && AssignsNothing(e.brokerCleanup.reply)
            && e.clock.brokerStarted > 0 && p.envelope(Output(e.broker.reply))
  {
  }

  lemma {:induction false} ResultsByBoth(p: Prepared, e: RunEvidence)
    requires AnsweredGroups(p.View(), p.names, p.limits, e)
    ensures ExpectedResults(e)
    ensures && AllDecode(e.provisioning) && AllDecode(e.post) && AllDecode(e.cleanup) && AllDecode(e.absence)
            && AllHashable(e.provisioning) && AllHashable(e.post) && AllHashable(e.cleanup)
            && AllHashable(e.absence)
       <==> NoneMarked(e.provisioning) && NoneMarked(e.post) && NoneMarked(e.cleanup) && NoneMarked(e.absence)
  {
    GroupDecodes(p, e.provisioning);
    GroupDecodes(p, e.post);
    GroupDecodes(p, e.cleanup);
    GroupDecodes(p, e.absence);
  }

  lemma {:induction false} MeasurementByBoth(p: Prepared, m: Measurement)
    requires ProbeAnswers(p.View(), m.command.reply) && m.command.command == Probe
    ensures MeasurementDecodes(p, m) <==> RuntimeAsPrepared(p, m)
  {
  }

  lemma {:induction false} InspectionsByBoth(p: Prepared, e: RunEvidence)
    requires AnsweredGroups(p.View(), p.names, p.limits, e)
    ensures InspectionsHold(p, e.provisioning[7..], e.post)
       <==> ListsAndRunning(Output(e.provisioning[9].reply), true)
  {
    var pre := e.provisioning[7..];
    assert pre[2] == e.provisioning[9] && AllSucceeded(p.View(), pre);
    BothInspectionsHold(p, pre, e.post);
  }

  lemma {:induction false} MeasurementsByBoth(p: Prepared, e: RunEvidence)
    requires AnsweredGroups(p.View(), p.names, p.limits, e) && IssuedGroups(p, e)
    ensures MeasurementDecodes(p, e.before) <==> RuntimeAsPrepared(p, e.before)
    ensures MeasurementDecodes(p, e.after) <==> RuntimeAsPrepared(p, e.after)
  {
    MeasurementByBoth(p, e.before);
    MeasurementByBoth(p, e.after);
  }

  /**
   The coordinator accepts a successful run of the outer executor exactly when the acceptance
   conditions hold: everything else it re-derives, the producer already guarantees.
   */
  lemma {:induction false} ProducerMeetsChecker(p: Prepared, e: RunEvidence)
    requires p.Bounded() && ProducedRun(p, e)
    ensures CheckerAccepts(p, e) <==> AcceptConditions(p, e)
  {
    IssuedAsExpected(p, e);
    ResultsByBoth(p, e);
    InspectionsByBoth(p, e);
    RemovalsByBoth(p, e.cleanup);
    MeasurementsByBoth(p, e);
    BrokerByBoth(p, e);
  }

  // ---------------------------------------------------------------- from a run to its evidence

  lemma {:induction false} ReplayCommands(script: nat -> Reply, start: nat, commands: seq<Command>)
    ensures Commands(Replay(script, start, commands)) == commands
  {
  }

  lemma {:induction false} RemovalAnswers(view: View, n: Names, script: nat -> Reply, start: nat, cleanup: seq<Event>)
    requires RemovedFirst(view, n, script, start, 3)
    requires cleanup == Replay(script, start, n.Removals())
    ensures |cleanup| == 6 && AllSucceeded(view, cleanup)
    ensures view.owned(Output(cleanup[0].reply), n.GatewayTarget())
    ensures view.owned(Output(cleanup[2].reply), n.InternalTarget())
    ensures view.owned(Output(cleanup[4].reply), n.ExternalTarget())
  {
    assert RemovedOne(view, n.Targets()[0], script, start + 2 * 0);
    assert RemovedOne(view, n.Targets()[1], script, start + 2 * 1);
    assert RemovedOne(view, n.Targets()[2], script, start + 2 * 2);
  }

  lemma {:induction false} ProvisioningAnswers(
    view: View, n: Names, script: nat -> Reply, start: nat, provisioning: seq<Event>)
    requires Attested(view, n, script, start).Some?
    requires provisioning == Replay(script, start, n.Provisioning())
    ensures |provisioning| == 10 && AllSucceeded(view, provisioning) && AllSilent(provisioning[..3])
    ensures SeenIn(view, n, provisioning[7..]) == Attested(view, n, script, start)
  {
  }

  lemma {:induction false} PostAnswers(
    view: View, n: Names, script: nat -> Reply, start: nat, boundary: Boundary, post: seq<Event>)
    requires Unchanged(view, n, boundary, script, start)
    requires post == Replay(script, start, n.Inspections())
    ensures |post| == 3 && AllSucceeded(view, post)
    ensures SeenIn(view, n, post) == Some(boundary)
  {
  }

  lemma {:induction false} AbsenceAnswers(view: View, n: Names, script: nat -> Reply, start: nat, absence: seq<Event>)
    requires ThreeSilent(view, script, start)
    requires absence == Replay(script, start, n.Preflight())
    ensures |absence| == 3 && AllSucceeded(view, absence) && AllSilent(absence)
  {
  }

  lemma {:induction false} EmittedIsAnswered(
    view: View, n: Names, launch: Launch, limits: Limits, e: RunEvidence, credential: Bytes,
    script: nat -> Reply, start: nat)
    requires Emitted(e, n, launch, script, start)
    requires RunAnswers(view, n, limits, credential, script, start)
    requires ProbeAnswers(view, e.before.command.reply) && e.after.backend == e.before.backend
    ensures AnsweredGroups(view, n, limits, e)
  {
    ProvisioningAnswers(view, n, script, start, e.provisioning);
    PostAnswers(view, n, script, start + 12, Attested(view, n, script, start).value, e.post);
    RemovalAnswers(view, n, script, start + 15, e.cleanup);
    AbsenceAnswers(view, n, script, start + 21, e.absence);
    var ran := Replay(script, start + 10, BrokerCommands(launch));
    assert e.broker == [e.broker, e.brokerCleanup][0] == ran[0];
    assert e.brokerCleanup == [e.broker, e.brokerCleanup][1] == ran[1];
  }

  /** Whatever `Execute` returns satisfies the producer's guarantees. */
  lemma {:induction false} EmittedIsProduced(
    p: Prepared, e: RunEvidence, credential: Bytes, script: nat -> Reply, start: nat)
    requires Emitted(e, p.names, p.launch, script, start)
    requires RunAnswers(p.View(), p.names, p.limits, credential, script, start)
    requires e.before.command.command == Probe && ProbeAnswers(p.View(), e.before.command.reply)
    requires e.after.backend == e.before.backend
    ensures ProducedRun(p, e)
  {
    EmittedIsAnswered(p.View(), p.names, p.launch, p.limits, e, credential, script, start);
    EmittedCommands(p, e, script, start);
  }

  lemma {:induction false} EmittedCommands(p: Prepared, e: RunEvidence, script: nat -> Reply, start: nat)
    requires Emitted(e, p.names, p.launch, script, start) && e.before.command.command == Probe
    ensures IssuedGroups(p, e)
  {
    ReplayCommands(script, start, p.names.Provisioning());
    ReplayCommands(script, start + 12, p.names.Inspections());
    ReplayCommands(script, start + 15, p.names.Removals());
    ReplayCommands(script, start + 21, p.names.Preflight());
    var ran := Replay(script, start + 10, BrokerCommands(p.launch));
    assert e.broker == [e.broker, e.brokerCleanup][0] == ran[0];
    assert e.brokerCleanup == [e.broker, e.brokerCleanup][1] == ran[1];
  }
}
