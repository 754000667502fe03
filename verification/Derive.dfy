/**
 Gates and TDD records derived from raw offline runs.

 Snapshot and run verification are opaque: `Verifiers` answers what each of them returns, or nothing
 when it raises.
 */
module Derive {
  import opened Wrappers
  import opened Utf8
  import opened Manifest
  import opened Models

  datatype Phase = GatePhase | RedPhase | GreenPhase

  datatype Key = Key(phase: Phase, acceptanceId: string)

  datatype RunRequest = RunRequest(
    key: Key, taskSha: string, candidateSha: string, candidateSnapshot: string, sourceSnapshot: string,
    sourceCommit: string, sourceTree: string, executionSnapshot: string, command: seq<string>,
    testPatch: Option<string>, testManifest: Option<Sha>)

  datatype OfflineRun = OfflineRun(request: RunRequest, exitCode: int, log: string, fingerprint: Option<string>)

  datatype Snapshot = Snapshot(commit: string, tree: string, manifest: string, sha: string)

  datatype RedSnapshot = RedSnapshot(testPaths: seq<Text>, snapshotSha: string, testPatch: string, testManifest: Sha)

  /** What the coordinator trusts of the two source snapshots. */
  datatype Context = Context(base: Snapshot, candidate: Snapshot)

  datatype Verifiers = Verifiers(
    sources: bool,
    red: RedSnapshot -> Option<RedSnapshot>,
    manifest: seq<Text> -> Option<Sha>,
    run: (OfflineRun, string) -> Option<OfflineRun>)

  datatype Inputs = Inputs(
    task: Task, policy: PolicyReport, taskSha: string, runs: seq<OfflineRun>, base: Snapshot,
    candidate: Snapshot, reds: seq<RedSnapshot>, context: Context, verify: Verifiers)

  datatype Derived = Derived(gates: seq<Gate>, tdds: seq<Tdd>, bindings: seq<OfflineRun>)

  // ---------------------------------------------------------------- exactly once by key

  predicate UniqueKeys<K(==), V>(values: seq<V>, key: V -> K) {
    forall i, j :: 0 <= i < j < |values| ==> key(values[i]) != key(values[j])
  }

  function ByKey<K(==), V(==)>(values: seq<V>, key: V -> K): map<K, V>
    requires UniqueKeys(values, key)
  {
    map v | v in values :: key(v) := v
  }

  /** `_exactly_once_by_key`: the dictionary, or nothing when a key repeats. */
  method ExactlyOnce<K(==), V(==)>(values: seq<V>, key: V -> K) returns (result: Option<map<K, V>>)
    ensures result.Some? <==> UniqueKeys(values, key)
    ensures result.Some? ==> result.value == ByKey(values, key)
  {
    var found: map<K, V> := map[];
    for i := 0 to |values|
      invariant UniqueKeys(values[..i], key) && found == ByKey(values[..i], key)
    {
      assert values[..i + 1] == values[..i] + [values[i]];
      if key(values[i]) in found {
        assert key((values[..i + 1])[i]) == key(values[i]);
        return None;
      }
      forall k | 0 <= k < i ensures key(values[k]) != key(values[i]) {
        assert values[..i][k] in values[..i];
      }
      found := found[key(values[i]) := values[i]];
    }
    assert values[..|values|] == values;
    return Some(found);
  }

  // ---------------------------------------------------------------- what must hold

  function RunKey(run: OfflineRun): Key { run.request.key }

  function RedPaths(red: RedSnapshot): seq<Text> { red.testPaths }

  predicate SourcesMatch(inputs: Inputs) {
    && inputs.verify.sources
    && inputs.base.commit == inputs.task.baseSha && inputs.base == inputs.context.base.(commit := inputs.base.commit)
    && inputs.candidate.commit == inputs.policy.headSha
    && inputs.candidate == inputs.context.candidate.(commit := inputs.candidate.commit)
  }

  function ExpectedPaths(task: Task): set<seq<Text>> {
    set i | 0 <= i < |task.acceptance| && task.acceptance[i].isTest :: task.acceptance[i].testPaths
  }

  function ExpectedKeys(task: Task): set<Key> {
    (set i | 0 <= i < |task.acceptance| :: Key(GatePhase, task.acceptance[i].id))
    + (set i | 0 <= i < |task.acceptance| && task.acceptance[i].isTest :: Key(RedPhase, task.acceptance[i].id))
    + (set i | 0 <= i < |task.acceptance| && task.acceptance[i].isTest :: Key(GreenPhase, task.acceptance[i].id))
  }

  /** Every collection is keyed uniquely and covers exactly what the TaskSpec demands. */
  predicate Covered(inputs: Inputs) {
    && UniqueKeys(inputs.reds, RedPaths) && ByKey(inputs.reds, RedPaths).Keys == ExpectedPaths(inputs.task)
    && UniqueKeys(inputs.runs, RunKey) && ByKey(inputs.runs, RunKey).Keys == ExpectedKeys(inputs.task)
  }

  /** The verified RED snapshot of a test acceptance, carrying the candidate's own test manifest. */
  function VerifiedRed(inputs: Inputs, reds: map<seq<Text>, RedSnapshot>, a: Acceptance): Option<RedSnapshot> {
    if a.testPaths !in reds then None
    else
      var red := inputs.verify.red(reds[a.testPaths]);
      if red.Some? && inputs.verify.manifest(a.testPaths) == Some(red.value.testManifest) then red else None
  }

  function Measured(inputs: Inputs, runs: map<Key, OfflineRun>, key: Key, execution: string): Option<OfflineRun> {
    if key in runs then inputs.verify.run(runs[key], execution) else None
  }

  predicate GateRunBound(inputs: Inputs, a: Acceptance, gate: OfflineRun) {
    && gate.request.taskSha == inputs.taskSha && Some(gate.request.candidateSha) == inputs.policy.patch
    && gate.request.candidateSnapshot == inputs.candidate.sha && gate.request.sourceSnapshot == inputs.candidate.sha
    && gate.request.sourceCommit == inputs.policy.headSha && gate.request.sourceTree == inputs.candidate.tree
    && gate.request.command == a.command
  }

  predicate PhaseRunsBound(inputs: Inputs, a: Acceptance, s: RedSnapshot, red: OfflineRun, green: OfflineRun) {
    && red.request.taskSha == inputs.taskSha == green.request.taskSha
    && Some(red.request.candidateSha) == inputs.policy.patch == Some(green.request.candidateSha)
    && red.request.sourceSnapshot == inputs.base.sha && red.request.sourceCommit == inputs.task.baseSha
    && red.request.sourceTree == inputs.base.tree && red.request.candidateSnapshot == inputs.candidate.sha
    && red.request.executionSnapshot == s.snapshotSha
    && green.request.sourceSnapshot == inputs.candidate.sha && green.request.sourceCommit == inputs.policy.headSha
    && green.request.sourceTree == inputs.candidate.tree && green.request.executionSnapshot == inputs.candidate.sha
    && red.request.command == a.command == green.request.command
    && red.request.testPatch == Some(s.testPatch) == green.request.testPatch
    && red.request.testManifest == Some(s.testManifest) == green.request.testManifest
  }

  function GateOf(inputs: Inputs, a: Acceptance, run: OfflineRun): Gate
    requires inputs.policy.patch.Some?
  {
    Gate(inputs.task.taskId, inputs.taskSha, inputs.policy.headSha, inputs.policy.patch.value, a.id,
         a.command, a.expectedExit, run.exitCode == a.expectedExit, run.exitCode, run.log)
  }

  function TddOf(inputs: Inputs, a: Acceptance, s: RedSnapshot, red: OfflineRun, green: OfflineRun): Tdd
    requires inputs.policy.patch.Some? && red.fingerprint.Some?
  {
    Tdd(true, inputs.task.taskId, inputs.taskSha, inputs.task.baseSha, inputs.policy.headSha,
        inputs.policy.patch.value, a.id, a.command, a.testPaths, s.testManifest, s.testPatch,
        Some(s.snapshotSha), Some(inputs.candidate.sha),
        Red(red.exitCode, red.log, red.fingerprint.value, s.testPatch),
        Green(green.exitCode, green.log, s.testPatch))
  }

  /** What one acceptance contributes, or nothing when a check or a record's validator raises. */
  function DeriveOne(
    inputs: Inputs, reds: map<seq<Text>, RedSnapshot>, runs: map<Key, OfflineRun>, a: Acceptance): Option<Derived>
  {
    var gate := Measured(inputs, runs, Key(GatePhase, a.id), inputs.candidate.sha);
    if inputs.policy.patch.None? || gate.None? || !GateRunBound(inputs, a, gate.value)
      || !ValidGate(GateOf(inputs, a, gate.value)) then None
    else if !a.isTest then Some(Derived([GateOf(inputs, a, gate.value)], [], [gate.value]))
    else
      var s := VerifiedRed(inputs, reds, a);
      if s.None? then None
      else
        var red := Measured(inputs, runs, Key(RedPhase, a.id), s.value.snapshotSha);
        var green := Measured(inputs, runs, Key(GreenPhase, a.id), inputs.candidate.sha);
        if red.None? || green.None? || !PhaseRunsBound(inputs, a, s.value, red.value, green.value)
          || red.value.fingerprint.None? || !ValidTdd(TddOf(inputs, a, s.value, red.value, green.value)) then None
        else
          Some(Derived([GateOf(inputs, a, gate.value)],
                       [TddOf(inputs, a, s.value, red.value, green.value)],
                       [gate.value, red.value, green.value]))
  }

  function DeriveAll(
    inputs: Inputs, reds: map<seq<Text>, RedSnapshot>, runs: map<Key, OfflineRun>, acceptance: seq<Acceptance>)
    : Option<Derived>
  {
    if acceptance == [] then Some(Derived([], [], []))
    else
      var front := DeriveAll(inputs, reds, runs, acceptance[..|acceptance| - 1]);
      var last := DeriveOne(inputs, reds, runs, acceptance[|acceptance| - 1]);
      if front.None? || last.None? then None
      else Some(Derived(front.value.gates + last.value.gates, front.value.tdds + last.value.tdds,
                        front.value.bindings + last.value.bindings))
  }

  /** The artifacts of a complete, consistent set of runs. */
  function Artifacts(inputs: Inputs): Option<Derived> {
    if !SourcesMatch(inputs) || !Covered(inputs) then None
    else DeriveAll(inputs, ByKey(inputs.reds, RedPaths), ByKey(inputs.runs, RunKey), inputs.task.acceptance)
  }

  // ---------------------------------------------------------------- the derivation

  lemma {:induction false} OneFails(
    inputs: Inputs, reds: map<seq<Text>, RedSnapshot>, runs: map<Key, OfflineRun>,
    acceptance: seq<Acceptance>, i: nat)
    requires i < |acceptance| && DeriveOne(inputs, reds, runs, acceptance[i]).None?
    ensures DeriveAll(inputs, reds, runs, acceptance).None?
  {
    if i < |acceptance| - 1 {
      OneFails(inputs, reds, runs, acceptance[..|acceptance| - 1], i);
    }
  }

  lemma {:induction false} DerivePrefix(
    inputs: Inputs, reds: map<seq<Text>, RedSnapshot>, runs: map<Key, OfflineRun>,
    acceptance: seq<Acceptance>, i: nat)
    requires i < |acceptance|
    requires DeriveAll(inputs, reds, runs, acceptance[..i]).Some?
    requires DeriveOne(inputs, reds, runs, acceptance[i]).Some?
    ensures var front := DeriveAll(inputs, reds, runs, acceptance[..i]).value;
            var last := DeriveOne(inputs, reds, runs, acceptance[i]).value;
            DeriveAll(inputs, reds, runs, acceptance[..i + 1])
            == Some(Derived(front.gates + last.gates, front.tdds + last.tdds, front.bindings + last.bindings))
  {
    assert acceptance[..i + 1][..i] == acceptance[..i];
  }

  /** Verifies the RED snapshot of every test acceptance. */
  method VerifyReds(inputs: Inputs, reds: map<seq<Text>, RedSnapshot>)
    returns (verified: Option<map<string, RedSnapshot>>)
    requires UniqueIds(inputs.task.acceptance)
    ensures verified.None? ==>
              exists i :: 0 <= i < |inputs.task.acceptance| && inputs.task.acceptance[i].isTest
                          && VerifiedRed(inputs, reds, inputs.task.acceptance[i]).None?
    ensures verified.Some? ==>
              forall i :: 0 <= i < |inputs.task.acceptance| && inputs.task.acceptance[i].isTest ==>
                && inputs.task.acceptance[i].id in verified.value
                && VerifiedRed(inputs, reds, inputs.task.acceptance[i])
                   == Some(verified.value[inputs.task.acceptance[i].id])
  {
    var acceptance := inputs.task.acceptance;
    var found: map<string, RedSnapshot> := map[];
    for i := 0 to |acceptance|
      invariant forall k :: 0 <= k < i && acceptance[k].isTest ==>
                  && acceptance[k].id in found
                  && VerifiedRed(inputs, reds, acceptance[k]) == Some(found[acceptance[k].id])
    {
      if acceptance[i].isTest {
        var red := VerifiedRed(inputs, reds, acceptance[i]);
        if red.None? {
          return None;
        }
        found := found[acceptance[i].id := red.value];
      }
    }
    return Some(found);
  }

  function Execution(inputs: Inputs, verified: map<string, RedSnapshot>, key: Key): string {
    if key.phase.RedPhase? && key.acceptanceId in verified then verified[key.acceptanceId].snapshotSha
    else inputs.candidate.sha
  }

  /** Validates every raw run against the snapshot its phase executed. */
  method MeasureRuns(inputs: Inputs, verified: map<string, RedSnapshot>)
    returns (measured: Option<map<Key, OfflineRun>>)
    requires UniqueKeys(inputs.runs, RunKey)
    ensures measured.None? ==>
              exists k ::
                && 0 <= k < |inputs.runs|
                && inputs.verify.run(inputs.runs[k], Execution(inputs, verified, RunKey(inputs.runs[k]))).None?
    ensures measured.Some? ==>
              && measured.value.Keys == ByKey(inputs.runs, RunKey).Keys
              && forall key :: key in measured.value ==>
                   Measured(inputs, ByKey(inputs.runs, RunKey), key, Execution(inputs, verified, key))
                   == Some(measured.value[key])
  {
    var found: map<Key, OfflineRun> := map[];
    for i := 0 to |inputs.runs|
      invariant forall key :: key in found <==> exists k :: 0 <= k < i && RunKey(inputs.runs[k]) == key
      invariant forall k :: 0 <= k < i ==>
                  && RunKey(inputs.runs[k]) in found
                  && inputs.verify.run(inputs.runs[k], Execution(inputs, verified, RunKey(inputs.runs[k])))
                     == Some(found[RunKey(inputs.runs[k])])
    {
      var key := RunKey(inputs.runs[i]);
      var run := inputs.verify.run(inputs.runs[i], Execution(inputs, verified, key));
      if run.None? {
        return None;
      }
      found := found[key := run.value];
    }
    MeasuredByKey(inputs, verified, found);
    return Some(found);
  }

  lemma {:induction false} MeasuredByKey(
    inputs: Inputs, verified: map<string, RedSnapshot>, found: map<Key, OfflineRun>)
    requires UniqueKeys(inputs.runs, RunKey)
    requires forall key :: key in found <==> exists k :: 0 <= k < |inputs.runs| && RunKey(inputs.runs[k]) == key
    requires forall k :: 0 <= k < |inputs.runs| ==>
               && RunKey(inputs.runs[k]) in found
               && inputs.verify.run(inputs.runs[k], Execution(inputs, verified, RunKey(inputs.runs[k])))
                  == Some(found[RunKey(inputs.runs[k])])
    ensures found.Keys == ByKey(inputs.runs, RunKey).Keys
    ensures forall key :: key in found ==>
              Measured(inputs, ByKey(inputs.runs, RunKey), key, Execution(inputs, verified, key)) == Some(found[key])
  {
    var byKey := ByKey(inputs.runs, RunKey);
    forall key | key in found
      ensures key in byKey && Measured(inputs, byKey, key, Execution(inputs, verified, key)) == Some(found[key])
    {
      var k :| 0 <= k < |inputs.runs| && RunKey(inputs.runs[k]) == key;
      assert inputs.runs[k] in inputs.runs;
      assert byKey[key] == inputs.runs[k];
    }
  }

  /** One acceptance's artifacts from the dictionaries built before. */
  method DeriveAcceptance(
    inputs: Inputs, verified: map<string, RedSnapshot>, measured: map<Key, OfflineRun>, a: Acceptance,
    ghost reds: map<seq<Text>, RedSnapshot>, ghost runs: map<Key, OfflineRun>)
    returns (derived: Option<Derived>)
    requires a.isTest ==> a.id in verified && VerifiedRed(inputs, reds, a) == Some(verified[a.id])
    requires Key(GatePhase, a.id) in measured
    requires a.isTest ==> Key(RedPhase, a.id) in measured && Key(GreenPhase, a.id) in measured
    requires forall key :: key in measured ==>
               Measured(inputs, runs, key, Execution(inputs, verified, key)) == Some(measured[key])
    ensures derived == DeriveOne(inputs, reds, runs, a)
  {
    var gate := measured[Key(GatePhase, a.id)];
    if inputs.policy.patch.None? || !GateRunBound(inputs, a, gate) || !ValidGate(GateOf(inputs, a, gate)) {
      return None;
    }
    if !a.isTest {
      return Some(Derived([GateOf(inputs, a, gate)], [], [gate]));
    }
    var s := verified[a.id];
    var red, green := measured[Key(RedPhase, a.id)], measured[Key(GreenPhase, a.id)];
    if !PhaseRunsBound(inputs, a, s, red, green) || red.fingerprint.None?
      || !ValidTdd(TddOf(inputs, a, s, red, green))
    {
      return None;
    }
    return Some(Derived([GateOf(inputs, a, gate)], [TddOf(inputs, a, s, red, green)], [gate, red, green]));
  }

  lemma {:induction false} UnverifiedFails(inputs: Inputs, i: nat)
    requires Covered(inputs) && i < |inputs.task.acceptance| && inputs.task.acceptance[i].isTest
    requires VerifiedRed(inputs, ByKey(inputs.reds, RedPaths), inputs.task.acceptance[i]).None?
    ensures Artifacts(inputs).None?
  {
    OneFails(inputs, ByKey(inputs.reds, RedPaths), ByKey(inputs.runs, RunKey), inputs.task.acceptance, i);
  }

  lemma {:induction false} UnmeasuredFails(inputs: Inputs, verified: map<string, RedSnapshot>, k: nat)
    requires Covered(inputs) && UniqueIds(inputs.task.acceptance) && k < |inputs.runs|
    requires forall i :: 0 <= i < |inputs.task.acceptance| && inputs.task.acceptance[i].isTest ==>
               && inputs.task.acceptance[i].id in verified
               && VerifiedRed(inputs, ByKey(inputs.reds, RedPaths), inputs.task.acceptance[i])
                  == Some(verified[inputs.task.acceptance[i].id])
    requires inputs.verify.run(inputs.runs[k], Execution(inputs, verified, RunKey(inputs.runs[k]))).None?
    ensures Artifacts(inputs).None?
  {
    var byKey := ByKey(inputs.runs, RunKey);
    var key := RunKey(inputs.runs[k]);
    assert inputs.runs[k] in inputs.runs;
    assert key in byKey.Keys && byKey[key] == inputs.runs[k];
    assert key in ExpectedKeys(inputs.task);
    var i :| 0 <= i < |inputs.task.acceptance| && inputs.task.acceptance[i].id == key.acceptanceId
             && (key.phase.GatePhase? || inputs.task.acceptance[i].isTest);
    OneFails(inputs, ByKey(inputs.reds, RedPaths), byKey, inputs.task.acceptance, i);
  }

  lemma {:induction false} KeysCovered(inputs: Inputs, i: nat)
    requires Covered(inputs) && i < |inputs.task.acceptance|
    ensures var a := inputs.task.acceptance[i];
            var keys := ByKey(inputs.runs, RunKey).Keys;
            && Key(GatePhase, a.id) in keys
            && (a.isTest ==> Key(RedPhase, a.id) in keys && Key(GreenPhase, a.id) in keys)
  {
    var a := inputs.task.acceptance[i];
    assert Key(GatePhase, a.id) in ExpectedKeys(inputs.task);
    if a.isTest {
      assert Key(RedPhase, a.id) in ExpectedKeys(inputs.task) && Key(GreenPhase, a.id) in ExpectedKeys(inputs.task);
    }
  }

  /** Derives every artifact, or raises. */
  method DeriveArtifacts(inputs: Inputs) returns (derived: Option<Derived>)
    requires ValidTask(inputs.task)
    ensures derived == Artifacts(inputs)
  {
    if !SourcesMatch(inputs) { return None; }
    var reds := ExactlyOnce(inputs.reds, RedPaths);
    if reds.None? || reds.value.Keys != ExpectedPaths(inputs.task) { return None; }
    var runs := ExactlyOnce(inputs.runs, RunKey);
    if runs.None? || runs.value.Keys != ExpectedKeys(inputs.task) { return None; }
    var verified := VerifyReds(inputs, reds.value);
    if verified.None? {
      ghost var i :| 0 <= i < |inputs.task.acceptance| && inputs.task.acceptance[i].isTest
               && VerifiedRed(inputs, reds.value, inputs.task.acceptance[i]).None?;
      UnverifiedFails(inputs, i);
      return None;
    }
    var measured := MeasureRuns(inputs, verified.value);
    if measured.None? {
      ghost var k :|
        && 0 <= k < |inputs.runs|
        && inputs.verify.run(inputs.runs[k], Execution(inputs, verified.value, RunKey(inputs.runs[k]))).None?;
      UnmeasuredFails(inputs, verified.value, k);
      return None;
    }
    var result := Derived([], [], []);
    var acceptance := inputs.task.acceptance;
    for i := 0 to |acceptance|
      invariant DeriveAll(inputs, reds.value, runs.value, acceptance[..i]) == Some(result)
    {
      KeysCovered(inputs, i);
      var one := DeriveAcceptance(inputs, verified.value, measured.value, acceptance[i], reds.value, runs.value);
      if one.None? {
        OneFails(inputs, reds.value, runs.value, acceptance, i);
        return None;
      }
      DerivePrefix(inputs, reds.value, runs.value, acceptance, i);
      result := Derived(result.gates + one.value.gates, result.tdds + one.value.tdds,
                        result.bindings + one.value.bindings);
    }
    assert acceptance[..|acceptance|] == acceptance;
    return Some(result);
  }
}
