/**
 Removing what a lifecycle may have created, and proving it absent.

 Both executors take down whatever was created, in one order, whatever fails: each resource is
 inspected and removed only when the inspection shows it to be their own, and afterwards each name is
 probed.  The events are a function of the runtime's answers and of the resources that may exist.
 */
module Teardown {
  import opened Wrappers
  import opened Inspect
  import opened Lifecycle

  // ---------------------------------------------------------------- what is issued

  /** The inspection was kept as a record and shows the resource to be this lifecycle's own. */
  predicate Shown(view: View, event: Event, target: Target) {
    Measured(view, event.reply) && ShowsOwned(event, target, view)
  }

  function CleanOne(view: View, script: nat -> Reply, start: nat, target: Target): seq<Event> {
    var inspected := Event(Inspection(target), script(start));
    [inspected] + if Shown(view, inspected, target) then [Event(Remove(target), script(start + 1))] else []
  }

  /** Target after target, in order. */
  function CleanEvents(view: View, script: nat -> Reply, start: nat, targets: seq<Target>): seq<Event> {
    if targets == [] then []
    else
      var front := CleanEvents(view, script, start, targets[..|targets| - 1]);
      front + CleanOne(view, script, start + |front|, targets[|targets| - 1])
  }

  function Absences(targets: seq<Target>): (commands: seq<Command>)
    ensures |commands| == |targets| && forall i :: 0 <= i < |targets| ==> commands[i] == Absence(targets[i])
  {
    seq(|targets|, i requires 0 <= i < |targets| => Absence(targets[i]))
  }

  /** All inspections and removals, then all absence probes. */
  function TeardownEvents(view: View, script: nat -> Reply, start: nat, targets: seq<Target>): seq<Event> {
    var removals := CleanEvents(view, script, start, targets);
    removals + Replay(script, start + |removals|, Absences(targets))
  }

  // ---------------------------------------------------------------- what success means

  /** One resource inspected as this lifecycle's own, then removed. */
  ghost predicate RemovedOne(view: View, target: Target, script: nat -> Reply, start: nat) {
    && Succeeded(view, script(start)) && Succeeded(view, script(start + 1))
    && view.owned(Output(script(start)), target)
  }

  ghost predicate CleanOk(view: View, script: nat -> Reply, start: nat, targets: seq<Target>) {
    targets == [] ||
    var front := targets[..|targets| - 1];
    && CleanOk(view, script, start, front)
    && RemovedOne(view, targets[|targets| - 1], script, start + |CleanEvents(view, script, start, front)|)
  }

  ghost predicate AllSilentFrom(view: View, script: nat -> Reply, start: nat, count: nat) {
    forall i :: start <= i < start + count ==> Silent(view, script(i))
  }

  ghost predicate TeardownOk(view: View, script: nat -> Reply, start: nat, targets: seq<Target>) {
    && CleanOk(view, script, start, targets)
    && AllSilentFrom(view, script, start + |CleanEvents(view, script, start, targets)|, |targets|)
  }

  /** The records of a clean teardown: all of its answers. */
  ghost predicate TeardownKept(
    view: View, script: nat -> Reply, start: nat, targets: seq<Target>, cleanup: seq<Event>, absence: seq<Event>)
  {
    var removals := CleanEvents(view, script, start, targets);
    cleanup == removals && absence == Replay(script, start + |removals|, Absences(targets))
  }

  /** The first `count` of the three resources, each inspected and removed by two commands. */
  ghost predicate RemovedFirst(view: View, n: Names, script: nat -> Reply, start: nat, count: nat)
    requires count <= 3
  {
    forall j :: 0 <= j < count ==> RemovedOne(view, n.Targets()[j], script, start + 2 * j)
  }

  /**
   The resource was inspected, removed at once if it was shown to be owned, and later probed for
   absence.
   */
  ghost predicate Attempted(trace: seq<Event>, from: nat, target: Target, view: View) {
    exists i, j :: from <= i < j < |trace| && AttemptedAt(trace, i, j, target, view)
  }

  predicate AttemptedAt(trace: seq<Event>, i: nat, j: nat, target: Target, view: View)
    requires i < j < |trace|
  {
    && trace[i].command == Inspection(target) && trace[j].command == Absence(target)
    && (Shown(view, trace[i], target) ==> i + 1 < j && trace[i + 1].command == Remove(target))
  }

  // ---------------------------------------------------------------- lemmas

  lemma {:induction false} CleanAppend(
    view: View, script: nat -> Reply, start: nat, targets: seq<Target>, target: Target)
    ensures var front := CleanEvents(view, script, start, targets);
            && CleanEvents(view, script, start, targets + [target])
               == front + CleanOne(view, script, start + |front|, target)
            && (CleanOk(view, script, start, targets + [target])
                <==> CleanOk(view, script, start, targets)
                     && RemovedOne(view, target, script, start + |front|))
  {
    assert (targets + [target])[..|targets|] == targets;
  }

  lemma {:induction false} PairIssued(view: View, script: nat -> Reply, start: nat, target: Target)
    requires RemovedOne(view, target, script, start)
    ensures CleanOne(view, script, start, target) == Replay(script, start, [Inspection(target), Remove(target)])
  {
  }

  /** One more success adds exactly two commands. */
  lemma {:induction false} PairAppended(
    view: View, script: nat -> Reply, start: nat, targets: seq<Target>, pairs: seq<Command>, target: Target)
    requires CleanOk(view, script, start, targets) ==>
               CleanEvents(view, script, start, targets) == Replay(script, start, pairs)
    ensures CleanOk(view, script, start, targets + [target])
       <==> CleanOk(view, script, start, targets) && RemovedOne(view, target, script, start + |pairs|)
    ensures CleanOk(view, script, start, targets + [target]) ==>
              CleanEvents(view, script, start, targets + [target])
              == Replay(script, start, pairs + [Inspection(target), Remove(target)])
  {
    CleanAppend(view, script, start, targets, target);
    if CleanOk(view, script, start, targets + [target]) {
      PairIssued(view, script, start + |pairs|, target);
      ReplayConcat(script, start, pairs, [Inspection(target), Remove(target)]);
    }
  }

  /** Success at three targets means exactly two commands for each. */
  lemma {:induction false} CleanThree(
    view: View, script: nat -> Reply, start: nat, a: Target, b: Target, c: Target)
    ensures CleanOk(view, script, start, [a, b, c])
       <==> && RemovedOne(view, a, script, start) && RemovedOne(view, b, script, start + 2)
            && RemovedOne(view, c, script, start + 4)
    ensures CleanOk(view, script, start, [a, b, c]) ==>
              CleanEvents(view, script, start, [a, b, c])
              == Replay(script, start, [Inspection(a), Remove(a), Inspection(b), Remove(b), Inspection(c), Remove(c)])
  {
    var first, second := [Inspection(a), Remove(a)], [Inspection(b), Remove(b)];
    PairAppended(view, script, start, [], [], a);
    assert [] + [a] == [a] && [] + first == first;
    PairAppended(view, script, start, [a], first, b);
    assert [a] + [b] == [a, b];
    PairAppended(view, script, start, [a, b], first + second, c);
    assert [a, b] + [c] == [a, b, c];
    assert first + second + [Inspection(c), Remove(c)]
        == [Inspection(a), Remove(a), Inspection(b), Remove(b), Inspection(c), Remove(c)];
  }

  /** With all three resources, success is six removal answers and three silent probes. */
  lemma {:induction false} TeardownOfAll(view: View, n: Names, script: nat -> Reply, start: nat)
    ensures TeardownOk(view, script, start, n.Targets())
       <==> RemovedFirst(view, n, script, start, 3) && ThreeSilent(view, script, start + 6)
    ensures TeardownOk(view, script, start, n.Targets()) ==>
              && CleanEvents(view, script, start, n.Targets()) == Replay(script, start, n.Removals())
              && TeardownEvents(view, script, start, n.Targets())
                 == Replay(script, start, n.Removals()) + Replay(script, start + 6, n.Preflight())
  {
    CleanThree(view, script, start, n.GatewayTarget(), n.InternalTarget(), n.ExternalTarget());
    FirstThree(view, n, script, start);
    assert Absences(n.Targets()) == n.Preflight();
    ThreeProbes(view, script, start + 6);
  }

  lemma {:induction false} FirstThree(view: View, n: Names, script: nat -> Reply, start: nat)
    ensures RemovedFirst(view, n, script, start, 3)
       <==> && RemovedOne(view, n.GatewayTarget(), script, start)
            && RemovedOne(view, n.InternalTarget(), script, start + 2)
            && RemovedOne(view, n.ExternalTarget(), script, start + 4)
  {
    if RemovedFirst(view, n, script, start, 3) {
      assert RemovedOne(view, n.Targets()[0], script, start + 2 * 0);
      assert RemovedOne(view, n.Targets()[1], script, start + 2 * 1);
      assert RemovedOne(view, n.Targets()[2], script, start + 2 * 2);
    }
  }

  lemma {:induction false} ThreeProbes(view: View, script: nat -> Reply, start: nat)
    ensures AllSilentFrom(view, script, start, 3) <==> ThreeSilent(view, script, start)
  {
  }

  /** Where the k-th target is inspected. */
  lemma {:induction false} CleanPosition(
    view: View, script: nat -> Reply, start: nat, targets: seq<Target>, k: nat)
    returns (i: nat)
    requires k < |targets|
    ensures var events := CleanEvents(view, script, start, targets);
            && i < |events| && events[i].command == Inspection(targets[k])
            && (Shown(view, events[i], targets[k]) ==>
                  i + 1 < |events| && events[i + 1].command == Remove(targets[k]))
  {
    var front := targets[..|targets| - 1];
    if k < |front| {
      i := CleanPosition(view, script, start, front, k);
    } else {
      i := |CleanEvents(view, script, start, front)|;
    }
  }

  /** Every target is inspected, removed if shown to be owned, and probed. */
  lemma {:induction false} TeardownAttempts(
    view: View, script: nat -> Reply, start: nat, targets: seq<Target>, trace: seq<Event>, target: Target)
    requires target in targets && start <= |trace|
    requires TeardownEvents(view, script, start, targets) <= trace[start..]
    ensures Attempted(trace, start, target, view)
  {
    var k :| 0 <= k < |targets| && targets[k] == target;
    var i := CleanPosition(view, script, start, targets, k);
    var removals := CleanEvents(view, script, start, targets);
    var events := TeardownEvents(view, script, start, targets);
    var j := |removals| + k;
    assert events[i] == removals[i] && (i + 1 < |removals| ==> events[i + 1] == removals[i + 1]);
    assert events[j].command == Absence(target);
    assert trace[start..][i] == trace[start + i] && trace[start..][j] == trace[start + j];
    assert i + 1 < |removals| ==> trace[start..][i + 1] == trace[start + i + 1];
    assert AttemptedAt(trace, start + i, start + j, target, view);
  }

  lemma {:induction false} AttemptedLater(
    before: seq<Event>, after: seq<Event>, from: nat, target: Target, view: View)
    requires before <= after && Attempted(before, from, target, view)
    ensures Attempted(after, from, target, view)
  {
    var i, j :| from <= i < j < |before| && AttemptedAt(before, i, j, target, view);
    assert AttemptedAt(after, i, j, target, view);
  }

  /** Removals in a teardown directly follow an inspection showing ownership; nothing is created or launched. */
  lemma {:induction false} CleanIsOwned(
    view: View, script: nat -> Reply, start: nat, targets: seq<Target>, before: seq<Event>)
    ensures var after := before + CleanEvents(view, script, start, targets);
            OwnedRemovals(after, |before|, view) && Harmless(after, |before|)
  {
    if targets != [] {
      var front, target := targets[..|targets| - 1], targets[|targets| - 1];
      CleanIsOwned(view, script, start, front, before);
      var events := CleanEvents(view, script, start, front);
      var one := CleanOne(view, script, start + |events|, target);
      var middle := before + events;
      assert before + (events + one) == middle + one;
      OwnedRemovalsExtend(middle, middle + one, |before|, view);
    }
  }

  /** Neither a creation nor a launch. */
  ghost predicate Harmless(trace: seq<Event>, from: nat) {
    forall i :: from <= i < |trace| ==> !trace[i].command.RunBroker? && CreatedBy(trace[i].command).None?
  }

  /** The resource a command may bring into existence. */
  function CreatedBy(command: Command): Option<Target> {
    match command
    case CreateNetwork(target, _, _) => Some(target)
    case RunGateway(target, _, _, _) => Some(target)
    case _ => None
  }

  lemma {:induction false} TeardownIsOwned(
    view: View, script: nat -> Reply, start: nat, targets: seq<Target>, before: seq<Event>)
    ensures var after := before + TeardownEvents(view, script, start, targets);
            OwnedRemovals(after, |before|, view) && Harmless(after, |before|)
  {
    CleanIsOwned(view, script, start, targets, before);
    var removals := CleanEvents(view, script, start, targets);
    var probes := Replay(script, start + |removals|, Absences(targets));
    assert before + (removals + probes) == (before + removals) + probes;
    OwnedRemovalsExtend(before + removals, before + removals + probes, |before|, view);
  }

  // ---------------------------------------------------------------- what may exist

  /** Which of the gateway, the internal and the external network may exist. */
  datatype Created = Created(gateway: bool, internal: bool, external: bool)
  {
    predicate All() { gateway && internal && external }

    function Flag(i: nat): bool
      requires i < 3
    {
      [gateway, internal, external][i]
    }

    /** Those of the first `i` resources that may exist, in the order they are taken down. */
    function First(n: Names, i: nat): seq<Target>
      requires i <= 3
    {
      if i == 0 then [] else First(n, i - 1) + if Flag(i - 1) then [n.Targets()[i - 1]] else []
    }

    function Of(n: Names): seq<Target> {
      First(n, 3)
    }

    lemma {:induction false} Next(n: Names, i: nat)
      requires i < 3
      ensures First(n, i + 1) == if Flag(i) then First(n, i) + [n.Targets()[i]] else First(n, i)
    {
      assert First(n, i) + [] == First(n, i);
    }
  }

  lemma {:induction false} CreatedTargets(created: Created, n: Names)
    ensures created.Of(n)
         == (if created.gateway then [n.GatewayTarget()] else [])
            + (if created.internal then [n.InternalTarget()] else [])
            + (if created.external then [n.ExternalTarget()] else [])
    ensures created.All() ==> created.Of(n) == n.Targets()
  {
    assert created.First(n, 0) == [];
    assert created.First(n, 1) == if created.gateway then [n.GatewayTarget()] else [];
    assert created.First(n, 2) == created.First(n, 1) + if created.internal then [n.InternalTarget()] else [];
  }

  ghost predicate NoCreations(trace: seq<Event>, from: nat) {
    forall i :: from <= i < |trace| ==> CreatedBy(trace[i].command).None?
  }

  /** Every resource created from `from` on is among those that may exist. */
  ghost predicate Covered(trace: seq<Event>, from: nat, created: Created, n: Names) {
    forall i :: from <= i < |trace| && CreatedBy(trace[i].command).Some? ==>
      CreatedBy(trace[i].command).value in created.Of(n)
  }

  lemma {:induction false} CoveredExtend(
    before: seq<Event>, after: seq<Event>, from: nat, earlier: Created, later: Created, n: Names)
    requires from <= |before| && before <= after
    requires Covered(before, from, earlier, n) && Covered(after, |before|, later, n)
    requires forall t :: t in earlier.Of(n) ==> t in later.Of(n)
    ensures Covered(after, from, later, n)
  {
    forall i | from <= i < |after| && CreatedBy(after[i].command).Some?
      ensures CreatedBy(after[i].command).value in later.Of(n)
    {
      assert i < |before| ==> after[i] == before[i];
    }
  }

  /** Every resource created from `from` on was later inspected, removed if owned, and probed. */
  ghost predicate NothingLeft(trace: seq<Event>, from: nat, view: View) {
    forall i :: from <= i < |trace| && CreatedBy(trace[i].command).Some? ==>
      Attempted(trace, i + 1, CreatedBy(trace[i].command).value, view)
  }

  lemma {:induction false} AttemptedEarlier(
    trace: seq<Event>, from: nat, later: nat, target: Target, view: View)
    requires from <= later && Attempted(trace, later, target, view)
    ensures Attempted(trace, from, target, view)
  {
    var i, j :| later <= i < j < |trace| && AttemptedAt(trace, i, j, target, view);
    assert AttemptedAt(trace, i, j, target, view);
  }

  /** A teardown of everything that may exist leaves no created resource unattended. */
  lemma {:induction false} TakenDown(
    view: View, n: Names, script: nat -> Reply, before: seq<Event>, from: nat, created: Created)
    requires from <= |before| && Covered(before, from, created, n)
    ensures NothingLeft(before + TeardownEvents(view, script, |before|, created.Of(n)), from, view)
  {
    var events := TeardownEvents(view, script, |before|, created.Of(n));
    var after := before + events;
    TeardownIsOwned(view, script, |before|, created.Of(n), before);
    forall i | from <= i < |after| && CreatedBy(after[i].command).Some?
      ensures Attempted(after, i + 1, CreatedBy(after[i].command).value, view)
    {
      assert i < |before| && after[i] == before[i];
      var target := CreatedBy(before[i].command).value;
      assert after[|before|..] == events;
      TeardownAttempts(view, script, |before|, created.Of(n), after, target);
      AttemptedEarlier(after, i + 1, |before|, target, view);
    }
  }

  lemma {:induction false} NothingLeftExtend(before: seq<Event>, after: seq<Event>, from: nat, view: View)
    requires from <= |before| && before <= after
    requires NothingLeft(before, from, view) && Harmless(after, |before|)
    ensures NothingLeft(after, from, view)
  {
    forall i | from <= i < |after| && CreatedBy(after[i].command).Some?
      ensures Attempted(after, i + 1, CreatedBy(after[i].command).value, view)
    {
      assert i < |before| && after[i] == before[i];
      AttemptedLater(before, after, i + 1, CreatedBy(before[i].command).value, view);
    }
  }

  // ---------------------------------------------------------------- the loops

  /** Inspects one resource and removes it only when the inspection shows ownership. */
  method CleanTarget(view: View, runtime: Runtime, target: Target) returns (ok: bool, records: seq<Event>)
    modifies runtime
    ensures runtime.trace == old(runtime.trace) + CleanOne(view, runtime.script, |old(runtime.trace)|, target)
    ensures ok <==> RemovedOne(view, target, runtime.script, |old(runtime.trace)|)
    ensures ok ==> records == CleanOne(view, runtime.script, |old(runtime.trace)|, target)
  {
    var inspected := Run(runtime, Inspection(target));
    if !Measured(view, inspected.reply) { return false, []; }
    if inspected.reply.exitCode != 0 || !view.owned(inspected.reply.stdout, target) {
      return false, [inspected];
    }
    var removed := Run(runtime, Remove(target));
    if !Measured(view, removed.reply) { return false, [inspected]; }
    return removed.reply.exitCode == 0, [inspected, removed];
  }

  /** How far the first loop has come: `targets` are done, after `before`. */
  ghost predicate Cleaning(
    view: View, runtime: Runtime, before: seq<Event>, targets: seq<Target>, ok: bool, records: seq<Event>)
    reads runtime
  {
    var events := CleanEvents(view, runtime.script, |before|, targets);
    && runtime.trace == before + events && (ok ==> records == events)
    && (ok <==> CleanOk(view, runtime.script, |before|, targets))
  }

  lemma {:induction false} CleaningStep(
    view: View, script: nat -> Reply, before: seq<Event>, targets: seq<Target>, target: Target)
    ensures var trace := before + CleanEvents(view, script, |before|, targets);
            var events := CleanEvents(view, script, |before|, targets + [target]);
            var one := CleanOne(view, script, |trace|, target);
            && before + events == trace + one
            && events == CleanEvents(view, script, |before|, targets) + one
            && (CleanOk(view, script, |before|, targets + [target])
                <==> CleanOk(view, script, |before|, targets) && RemovedOne(view, target, script, |trace|))
  {
    CleanAppend(view, script, |before|, targets, target);
  }

  method CleanNext(
    view: View, runtime: Runtime, target: Target, done: bool, kept: seq<Event>,
    ghost before: seq<Event>, ghost targets: seq<Target>)
    returns (ok: bool, records: seq<Event>)
    requires Cleaning(view, runtime, before, targets, done, kept)
    modifies runtime
    ensures Cleaning(view, runtime, before, targets + [target], ok, records)
  {
    CleaningStep(view, runtime.script, before, targets, target);
    var removed, more := CleanTarget(view, runtime, target);
    ok, records := done && removed, kept + more;
  }

  /** Every created resource is attempted, whatever happened to the ones before it. */
  method CleanTargets(view: View, n: Names, runtime: Runtime, created: Created)
    returns (ok: bool, records: seq<Event>)
    modifies runtime
    ensures runtime.trace
         == old(runtime.trace) + CleanEvents(view, runtime.script, |old(runtime.trace)|, created.Of(n))
    ensures ok <==> CleanOk(view, runtime.script, |old(runtime.trace)|, created.Of(n))
    ensures ok ==> records == CleanEvents(view, runtime.script, |old(runtime.trace)|, created.Of(n))
  {
    ghost var before := runtime.trace;
    ok, records := true, [];
    for i := 0 to 3
      invariant Cleaning(view, runtime, before, created.First(n, i), ok, records)
    {
      if created.Flag(i) {
        ok, records := CleanNext(view, runtime, n.Targets()[i], ok, records, before, created.First(n, i));
      }
      created.Next(n, i);
    }
  }

  lemma {:induction false} ProbeAppend(
    view: View, script: nat -> Reply, start: nat, targets: seq<Target>, target: Target)
    ensures var event := Event(Absence(target), script(start + |targets|));
            var events := Replay(script, start, Absences(targets));
            && Replay(script, start, Absences(targets + [target])) == events + [event]
            && (AllSilentFrom(view, script, start, |targets| + 1)
                <==> AllSilentFrom(view, script, start, |targets|) && Silent(view, event.reply))
  {
    assert Absences(targets + [target]) == Absences(targets) + [Absence(target)];
  }

  /** How far the second loop has come. */
  ghost predicate Probing(
    view: View, runtime: Runtime, before: seq<Event>, targets: seq<Target>, ok: bool, records: seq<Event>)
    reads runtime
  {
    var events := Replay(runtime.script, |before|, Absences(targets));
    && runtime.trace == before + events && (ok ==> records == events)
    && (ok <==> AllSilentFrom(view, runtime.script, |before|, |targets|))
  }

  method ProbeNext(
    view: View, runtime: Runtime, target: Target, done: bool, kept: seq<Event>,
    ghost before: seq<Event>, ghost targets: seq<Target>)
    returns (ok: bool, records: seq<Event>)
    requires Probing(view, runtime, before, targets, done, kept)
    modifies runtime
    ensures Probing(view, runtime, before, targets + [target], ok, records)
  {
    ProbeAppend(view, runtime.script, |before|, targets, target);
    var event := Run(runtime, Absence(target));
    Rejoin(before, Replay(runtime.script, |before|, Absences(targets)), [event]);
    records := kept + if Measured(view, event.reply) then [event] else [];
    ok := done && Silent(view, event.reply);
  }

  /** Every created resource must be observed absent; every one is probed. */
  method CheckAbsences(view: View, n: Names, runtime: Runtime, created: Created)
    returns (ok: bool, records: seq<Event>)
    modifies runtime
    ensures runtime.trace
         == old(runtime.trace) + Replay(runtime.script, |old(runtime.trace)|, Absences(created.Of(n)))
    ensures ok <==> AllSilentFrom(view, runtime.script, |old(runtime.trace)|, |created.Of(n)|)
    ensures ok ==> records == Replay(runtime.script, |old(runtime.trace)|, Absences(created.Of(n)))
  {
    ghost var before := runtime.trace;
    ok, records := true, [];
    for i := 0 to 3
      invariant Probing(view, runtime, before, created.First(n, i), ok, records)
    {
      if created.Flag(i) {
        ok, records := ProbeNext(view, runtime, n.Targets()[i], ok, records, before, created.First(n, i));
      }
      created.Next(n, i);
    }
  }

  /** The whole teardown, whatever fails in it. */
  method TakeDown(view: View, n: Names, runtime: Runtime, created: Created)
    returns (ok: bool, cleanup: seq<Event>, absence: seq<Event>)
    modifies runtime
    ensures runtime.trace
         == old(runtime.trace) + TeardownEvents(view, runtime.script, |old(runtime.trace)|, created.Of(n))
    ensures ok <==> TeardownOk(view, runtime.script, |old(runtime.trace)|, created.Of(n))
    ensures ok ==>
              TeardownKept(view, runtime.script, |old(runtime.trace)|, created.Of(n), cleanup, absence)
  {
    var removed, absent;
    removed, cleanup := CleanTargets(view, n, runtime, created);
    ghost var middle := runtime.trace;
    absent, absence := CheckAbsences(view, n, runtime, created);
    Rejoin(old(runtime.trace), CleanEvents(view, runtime.script, |old(runtime.trace)|, created.Of(n)),
           Replay(runtime.script, |middle|, Absences(created.Of(n))));
    ok := removed && absent;
  }

  lemma {:induction false} Rejoin<T>(a: seq<T>, b: seq<T>, c: seq<T>)
    ensures (a + b) + c == a + (b + c)
  {
  }
}
