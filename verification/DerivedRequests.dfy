/**
 What is left of the judge's refusals once the offline runs were derived: their gates, records, snapshots
 and requests always meet its checks.
 */
module DerivedRequests {
  import opened Wrappers
  import opened Utf8
  import opened Manifest
  import opened Models
  import opened Derive
  import opened DeriveFacts
  import opened TrustedRequests
  import opened AttestedJudge
  import N = Nonces

  // ---------------------------------------------------------------- one acceptance

  /** The ground of the judge's comparison is that of the derivation. */
  predicate SameGround(g: Ground, inputs: Inputs) {
    && g.task == inputs.task && g.policy == inputs.policy && g.taskSha == inputs.taskSha
    && g.context.baseSnapshot == inputs.base.sha && g.context.candidateSnapshot == inputs.candidate.sha
  }

  /** A measured run has the request of its one raw run, in the shape of its phase. */
  lemma {:induction false} MeasuredRequest(inputs: Inputs, key: Key, execution: string)
    requires Covered(inputs) && Remeasures(inputs.verify)
    requires Measured(inputs, RunsByKey(inputs), key, execution).Some?
    ensures var run := Measured(inputs, RunsByKey(inputs), key, execution).value;
            run.request.key == key && RequestShape(run.request, execution)
  {
    MeasuredFromRaw(inputs, key, execution);
  }

  lemma {:induction false} GateMeets(g: Ground, inputs: Inputs, a: Acceptance, gate: Gate, p: Provenance)
    requires SameGround(g, inputs) && Covered(inputs) && Remeasures(inputs.verify)
    requires IsGateOf(inputs, RunsByKey(inputs), a, gate) && Find(inputs.task.acceptance, a.id) == Some(a)
    ensures var run := GateRun(inputs, RunsByKey(inputs), a).value;
            Met(g, BindingOf(run, p), GateArtifact(gate)) && BindingOf(run, p).role == N.GateRole(a.id)
  {
    MeasuredRequest(inputs, Key(GatePhase, a.id), inputs.candidate.sha);
  }

  lemma {:induction false} PhasesMeet(
    g: Ground, inputs: Inputs, a: Acceptance, tdd: Tdd, red: Provenance, green: Provenance)
    requires SameGround(g, inputs) && Covered(inputs) && Remeasures(inputs.verify)
    requires IsTddOf(inputs, RedsByPaths(inputs), RunsByKey(inputs), a, tdd)
    requires Find(inputs.task.acceptance, a.id) == Some(a)
    ensures var phases := PhasesOf(inputs, RedsByPaths(inputs), RunsByKey(inputs), a).value;
            && Met(g, BindingOf(phases.red, red), RedOf(tdd))
            && BindingOf(phases.red, red).role == N.RedRole(a.id)
            && Met(g, BindingOf(phases.green, green), GreenOf(tdd))
            && BindingOf(phases.green, green).role == N.GreenRole(a.id)
    ensures SnapshotBound(inputs.task, tdd, g.context)
  {
    var phases := PhasesOf(inputs, RedsByPaths(inputs), RunsByKey(inputs), a).value;
    MeasuredRequest(inputs, Key(RedPhase, a.id), phases.snapshot.snapshotSha);
    MeasuredRequest(inputs, Key(GreenPhase, a.id), inputs.candidate.sha);
  }

  // ---------------------------------------------------------------- all acceptances

  lemma {:induction false} RunsIn(
    inputs: Inputs, reds: map<seq<Text>, RedSnapshot>, runs: map<Key, OfflineRun>, acceptance: seq<Acceptance>,
    i: nat, run: OfflineRun)
    requires i < |acceptance| && run in RunsOf(inputs, reds, runs, acceptance[i])
    ensures run in AllRuns(inputs, reds, runs, acceptance)
  {
    if i < |acceptance| - 1 {
      RunsIn(inputs, reds, runs, acceptance[..|acceptance| - 1], i, run);
    }
  }

  /** A derived run's binding is found under its role. */
  lemma {:induction false} BindingFound(s: Submission, e: Effective, runs: seq<OfflineRun>, run: OfflineRun)
    requires UniqueKeys(e.bindings, RoleOf) && run in runs
    requires forall b :: b in BindingsOf(s, runs) ==> b in e.bindings
    ensures var b := BindingOf(run, s.provenance(run));
            b.role in ByKey(e.bindings, RoleOf) && ByKey(e.bindings, RoleOf)[b.role] == b
  {
    var k :| 0 <= k < |runs| && runs[k] == run;
    assert BindingsOf(s, runs)[k] == BindingOf(run, s.provenance(run));
    assert BindingsOf(s, runs)[k] in e.bindings;
    var i :| 0 <= i < |e.bindings| && e.bindings[i] == BindingOf(run, s.provenance(run));
    ByKeyAt(e.bindings, RoleOf, i);
  }

  /** The offline verifiers are honest and the judge derives from them. */
  ghost predicate Offline(s: Submission) {
    && Consistent(s) && s.offline.Some? && EffectiveOf(s).Some? && Remeasures(s.offline.value.verify)
  }

  lemma {:induction false} EffectiveFacts(s: Submission)
    requires Offline(s)
    ensures var e, inputs := EffectiveOf(s).value, s.offline.value;
            && Covered(inputs) && SameGround(GroundOf(s), inputs)
            && Artifacts(inputs).Some?
            && Faithful(inputs, RedsByPaths(inputs), RunsByKey(inputs), s.task.acceptance, Artifacts(inputs).value)
            && e.gates == Artifacts(inputs).value.gates && e.tdds == Artifacts(inputs).value.tdds
            && forall b :: b in BindingsOf(s, Artifacts(inputs).value.bindings) ==> b in e.bindings
  {
    ArtifactsFaithful(s.offline.value, Artifacts(s.offline.value).value);
  }

  lemma {:induction false} GateRequestHolds(s: Submission, i: nat)
    requires Offline(s) && UniqueKeys(EffectiveOf(s).value.bindings, RoleOf)
    requires i < |s.task.acceptance|
    ensures var e := EffectiveOf(s).value;
            i < |e.gates| && GateRequestMet(s, ByKey(e.bindings, RoleOf), e.gates[i])
  {
    EffectiveFacts(s);
    var inputs, e := s.offline.value, EffectiveOf(s).value;
    var reds, runs := RedsByPaths(inputs), RunsByKey(inputs);
    var a := s.task.acceptance[i];
    assert IsGateOf(inputs, runs, a, e.gates[i]);
    FoundAcceptance(s.task.acceptance, a);
    var run := GateRun(inputs, runs, a).value;
    GateMeets(GroundOf(s), inputs, a, e.gates[i], s.provenance(run));
    assert run in RunsOf(inputs, reds, runs, a);
    RunsIn(inputs, reds, runs, s.task.acceptance, i, run);
    BindingFound(s, e, Artifacts(inputs).value.bindings, run);
  }

  lemma {:induction false} PhaseRequestsHold(s: Submission, k: nat)
    requires Offline(s) && UniqueKeys(EffectiveOf(s).value.bindings, RoleOf)
    requires k < |TestsOf(s.task.acceptance)|
    ensures var e := EffectiveOf(s).value;
            k < |e.tdds| && TddRequestsMet(s, ByKey(e.bindings, RoleOf), e.tdds[k])
  {
    EffectiveFacts(s);
    var inputs, e := s.offline.value, EffectiveOf(s).value;
    var reds, runs := RedsByPaths(inputs), RunsByKey(inputs);
    var a := TestsOf(s.task.acceptance)[k];
    assert IsTddOf(inputs, reds, runs, a, e.tdds[k]);
    TestsAreAcceptances(s.task.acceptance);
    FoundAcceptance(s.task.acceptance, a);
    var phases := PhasesOf(inputs, reds, runs, a).value;
    PhasesMeet(GroundOf(s), inputs, a, e.tdds[k], s.provenance(phases.red), s.provenance(phases.green));
    var i :| 0 <= i < |s.task.acceptance| && s.task.acceptance[i] == a;
    PhaseRunsIn(inputs, reds, runs, s.task.acceptance, i, phases);
    BindingFound(s, e, Artifacts(inputs).value.bindings, phases.red);
    BindingFound(s, e, Artifacts(inputs).value.bindings, phases.green);
  }

  lemma {:induction false} PhaseRunsIn(
    inputs: Inputs, reds: map<seq<Text>, RedSnapshot>, runs: map<Key, OfflineRun>, acceptance: seq<Acceptance>,
    i: nat, phases: Phases)
    requires i < |acceptance| && acceptance[i].isTest
    requires PhasesOf(inputs, reds, runs, acceptance[i]) == Some(phases)
    ensures phases.red in AllRuns(inputs, reds, runs, acceptance)
    ensures phases.green in AllRuns(inputs, reds, runs, acceptance)
  {
    var both := [phases.red, phases.green];
    assert both[0] == phases.red && both[1] == phases.green;
    assert phases.red in RunsOf(inputs, reds, runs, acceptance[i]);
    assert phases.green in RunsOf(inputs, reds, runs, acceptance[i]);
    RunsIn(inputs, reds, runs, acceptance, i, phases.red);
    RunsIn(inputs, reds, runs, acceptance, i, phases.green);
  }

  // ---------------------------------------------------------------- what can still be refused

  lemma {:induction false} SnapshotsHold(s: Submission)
    requires Offline(s)
    ensures SnapshotsBound(s.task, EffectiveOf(s).value.tdds, s.context)
  {
    EffectiveFacts(s);
    var inputs, e := s.offline.value, EffectiveOf(s).value;
    TestsAreAcceptances(s.task.acceptance);
    forall k | 0 <= k < |e.tdds| ensures SnapshotBound(s.task, e.tdds[k], s.context) {
      var a := TestsOf(s.task.acceptance)[k];
      assert IsTddOf(inputs, RedsByPaths(inputs), RunsByKey(inputs), a, e.tdds[k]);
      FoundAcceptance(s.task.acceptance, a);
      var none := Provenance("", "", "", "", "");
      PhasesMeet(GroundOf(s), inputs, a, e.tdds[k], none, none);
    }
  }

  lemma {:induction false} TestsUnique(acceptance: seq<Acceptance>)
    requires UniqueIds(acceptance)
    ensures UniqueIds(TestsOf(acceptance))
  {
    if acceptance != [] {
      var front, last := acceptance[..|acceptance| - 1], acceptance[|acceptance| - 1];
      TestsUnique(front);
      TestsAreAcceptances(front);
      forall i | 0 <= i < |TestsOf(front)| ensures TestsOf(front)[i].id != last.id {
        var k :| 0 <= k < |front| && front[k] == TestsOf(front)[i];
        assert acceptance[k].id != acceptance[|front|].id;
      }
    }
  }

  /** Values that follow a list of distinct keys one by one have just those keys. */
  lemma {:induction false} KeysInOrder<V>(values: seq<V>, key: V -> string, ids: seq<string>)
    requires |values| == |ids| && forall i :: 0 <= i < |ids| ==> key(values[i]) == ids[i]
    requires Unique(ids)
    ensures UniqueKeys(values, key) && ByKey(values, key).Keys == set i | 0 <= i < |ids| :: ids[i]
  {
    forall id | id in ByKey(values, key).Keys ensures id in set i | 0 <= i < |ids| :: ids[i] {
      var v :| v in values && key(v) == id;
      var i :| 0 <= i < |values| && values[i] == v;
      assert ids[i] == id;
    }
    forall i | 0 <= i < |ids| ensures ids[i] in ByKey(values, key).Keys {
      assert values[i] in values;
    }
  }

  function Ids(acceptance: seq<Acceptance>): (ids: seq<string>)
    ensures |ids| == |acceptance| && forall i :: 0 <= i < |ids| ==> ids[i] == acceptance[i].id
  {
    seq(|acceptance|, i requires 0 <= i < |acceptance| => acceptance[i].id)
  }

  lemma {:induction false} IdSets(task: Task)
    ensures (set i | 0 <= i < |Ids(task.acceptance)| :: Ids(task.acceptance)[i]) == AcceptanceIds(task)
    ensures (set i | 0 <= i < |Ids(TestsOf(task.acceptance))| :: Ids(TestsOf(task.acceptance))[i]) == TestIds(task)
  {
    var tests := TestsOf(task.acceptance);
    TestsAreAcceptances(task.acceptance);
    forall id | id in TestIds(task) ensures id in set i | 0 <= i < |Ids(tests)| :: Ids(tests)[i] {
      var a :| a in task.acceptance && a.isTest && a.id == id;
      assert a in tests;
      var k :| 0 <= k < |tests| && tests[k] == a;
      assert Ids(tests)[k] == id;
    }
    forall k | 0 <= k < |tests| ensures tests[k].id in TestIds(task) {
      var i :| 0 <= i < |task.acceptance| && task.acceptance[i] == tests[k];
    }
    assert forall i :: 0 <= i < |task.acceptance| ==> Ids(task.acceptance)[i] == task.acceptance[i].id;
  }

  /** Gates and records in the order of the acceptances cover the TaskSpec, unless it has no test. */
  lemma {:induction false} InOrderCovered(task: Task, e: Effective)
    requires UniqueIds(task.acceptance)
    requires |e.gates| == |task.acceptance| && |e.tdds| == |TestsOf(task.acceptance)|
    requires forall i :: 0 <= i < |e.gates| ==> e.gates[i].acceptanceId == task.acceptance[i].id
    requires forall k :: 0 <= k < |e.tdds| ==> e.tdds[k].acceptanceId == TestsOf(task.acceptance)[k].id
    ensures ExactlyCovered(task, e) <==> TestIds(task) != {}
  {
    var tests := TestsOf(task.acceptance);
    TestsUnique(task.acceptance);
    KeysInOrder(e.gates, GateId, Ids(task.acceptance));
    KeysInOrder(e.tdds, TddId, Ids(tests));
    IdSets(task);
    assert tests != [] ==> Ids(tests)[0] in TestIds(task);
  }

  lemma {:induction false} DerivedIds(s: Submission)
    requires Offline(s)
    ensures var e, acceptance := EffectiveOf(s).value, s.task.acceptance;
            && |e.gates| == |acceptance| && |e.tdds| == |TestsOf(acceptance)|
            && (forall i :: 0 <= i < |acceptance| ==> e.gates[i].acceptanceId == acceptance[i].id)
            && (forall k :: 0 <= k < |e.tdds| ==> e.tdds[k].acceptanceId == TestsOf(acceptance)[k].id)
  {
    EffectiveFacts(s);
    var inputs, e := s.offline.value, EffectiveOf(s).value;
    forall i | 0 <= i < |s.task.acceptance| ensures e.gates[i].acceptanceId == s.task.acceptance[i].id {
      assert IsGateOf(inputs, RunsByKey(inputs), s.task.acceptance[i], e.gates[i]);
    }
    forall k | 0 <= k < |e.tdds| ensures e.tdds[k].acceptanceId == TestsOf(s.task.acceptance)[k].id {
      assert IsTddOf(inputs, RedsByPaths(inputs), RunsByKey(inputs), TestsOf(s.task.acceptance)[k], e.tdds[k]);
    }
  }

  /** No request of a derived run is ever refused. */
  lemma {:induction false} OfflineRequestsHold(s: Submission)
    requires Offline(s) && UniqueKeys(EffectiveOf(s).value.bindings, RoleOf)
    ensures var e := EffectiveOf(s).value;
            && GateRequestsMet(s, ByKey(e.bindings, RoleOf), e.gates)
            && PhaseRequestsMet(s, ByKey(e.bindings, RoleOf), e.tdds)
  {
    DerivedIds(s);
    var e := EffectiveOf(s).value;
    forall i | 0 <= i < |e.gates| ensures GateRequestMet(s, ByKey(e.bindings, RoleOf), e.gates[i]) {
      GateRequestHolds(s, i);
    }
    forall k | 0 <= k < |e.tdds| ensures TddRequestsMet(s, ByKey(e.bindings, RoleOf), e.tdds[k]) {
      PhaseRequestsHold(s, k);
    }
  }

  /**
   After honest offline verification the judge builds its expectations exactly when the TaskSpec has a
   test, the packet and broker evidence hold, the panel and the runs are complete, and the four remaining
   requests are met: no derived gate, record, snapshot or run is ever refused.
   */
  lemma {:induction false} BuildableExactly(s: Submission)
    requires Offline(s)
    ensures var e := EffectiveOf(s).value;
            Buildable(s) <==>
              && s.task.version2 && s.packetValid && s.brokerEvidenceValid && TestIds(s.task) != {}
              && RunsCovered(s.task, e.bindings) && PanelPresent(s.reviews)
              && PlainRequestsMet(s, ByKey(e.bindings, RoleOf))
              && ReviewRequestsMet(s, ByKey(e.bindings, RoleOf), s.reviews)
  {
    SnapshotsHold(s);
    DerivedIds(s);
    InOrderCovered(s.task, EffectiveOf(s).value);
    if UniqueKeys(EffectiveOf(s).value.bindings, RoleOf) {
      OfflineRequestsHold(s);
    }
  }
}
