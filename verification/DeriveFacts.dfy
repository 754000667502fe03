/** Derivation preserves meaning: the order of the runs is irrelevant, and only real faults remain. */
module DeriveFacts {
  import opened Wrappers
  import opened Utf8
  import opened Manifest
  import opened Models
  import opened Judge
  import opened Derive

  // ---------------------------------------------------------------- order independence

  lemma {:induction false} TwiceAtTwoPlaces<V>(values: seq<V>, v: V) returns (i: nat, j: nat)
    requires multiset(values)[v] >= 2
    ensures i < j < |values| && values[i] == v && values[j] == v
  {
    var front, last := values[..|values| - 1], values[|values| - 1];
    assert values == front + [last];
    if multiset(front)[v] >= 2 {
      i, j := TwiceAtTwoPlaces(front, v);
    } else {
      assert v in multiset(front);
      i :| 0 <= i < |front| && front[i] == v;
      j := |front|;
    }
  }

  lemma {:induction false} TwoPlacesTwice<V>(values: seq<V>, i: nat, j: nat)
    requires i < j < |values| && values[i] == values[j]
    ensures multiset(values)[values[i]] >= 2
  {
    assert values == values[..j] + [values[j]] + values[j + 1..];
    assert values[..j][i] in multiset(values[..j]);
  }

  lemma {:induction false} UniqueKeysReordered<K, V>(a: seq<V>, b: seq<V>, key: V -> K)
    requires multiset(a) == multiset(b) && UniqueKeys(a, key)
    ensures UniqueKeys(b, key)
  {
    forall i, j | 0 <= i < j < |b| ensures key(b[i]) != key(b[j]) {
      if b[i] == b[j] {
        TwoPlacesTwice(b, i, j);
        var k, l := TwiceAtTwoPlaces(a, b[i]);
        assert false;
      } else {
        assert b[i] in multiset(a) && b[j] in multiset(a);
        var k :| 0 <= k < |a| && a[k] == b[i];
        var l :| 0 <= l < |a| && a[l] == b[j];
      }
    }
  }

  lemma {:induction false} ByKeyReordered<K, V>(a: seq<V>, b: seq<V>, key: V -> K)
    requires multiset(a) == multiset(b) && UniqueKeys(a, key) && UniqueKeys(b, key)
    ensures ByKey(a, key) == ByKey(b, key)
  {
    forall v ensures v in a <==> v in b {
      assert v in a <==> v in multiset(a);
      assert v in b <==> v in multiset(b);
    }
  }

  lemma {:induction false} RunListUnused(
    inputs: Inputs, other: Inputs, reds: map<seq<Text>, RedSnapshot>, runs: map<Key, OfflineRun>,
    acceptance: seq<Acceptance>)
    requires other == inputs.(runs := other.runs, reds := other.reds)
    ensures DeriveAll(inputs, reds, runs, acceptance) == DeriveAll(other, reds, runs, acceptance)
  {
    if acceptance != [] {
      RunListUnused(inputs, other, reds, runs, acceptance[..|acceptance| - 1]);
    }
  }

  /** Any order of the raw runs and of the RED snapshots derives the same artifacts. */
  lemma {:induction false} OrderIrrelevant(inputs: Inputs, runs: seq<OfflineRun>, reds: seq<RedSnapshot>)
    requires multiset(runs) == multiset(inputs.runs) && multiset(reds) == multiset(inputs.reds)
    ensures Artifacts(inputs.(runs := runs, reds := reds)) == Artifacts(inputs)
  {
    var other := inputs.(runs := runs, reds := reds);
    if Covered(inputs) || Covered(other) {
      if Covered(inputs) {
        UniqueKeysReordered(inputs.runs, runs, RunKey);
        UniqueKeysReordered(inputs.reds, reds, RedPaths);
      } else {
        UniqueKeysReordered(runs, inputs.runs, RunKey);
        UniqueKeysReordered(reds, inputs.reds, RedPaths);
      }
      ByKeyReordered(inputs.runs, runs, RunKey);
      ByKeyReordered(inputs.reds, reds, RedPaths);
      RunListUnused(inputs, other, ByKey(reds, RedPaths), ByKey(runs, RunKey), inputs.task.acceptance);
    }
  }

  // ---------------------------------------------------------------- what each artifact is

  function TestsOf(acceptance: seq<Acceptance>): seq<Acceptance> {
    if acceptance == [] then []
    else
      var last := acceptance[|acceptance| - 1];
      TestsOf(acceptance[..|acceptance| - 1]) + if last.isTest then [last] else []
  }

  /** The gate's run of this acceptance, as its verifier returned it. */
  function GateRun(inputs: Inputs, runs: map<Key, OfflineRun>, a: Acceptance): Option<OfflineRun> {
    Measured(inputs, runs, Key(GatePhase, a.id), inputs.candidate.sha)
  }

  /** The verified RED snapshot of a test acceptance, its run there and its run on the candidate. */
  datatype Phases = Phases(snapshot: RedSnapshot, red: OfflineRun, green: OfflineRun)

  function PhasesOf(
    inputs: Inputs, reds: map<seq<Text>, RedSnapshot>, runs: map<Key, OfflineRun>, a: Acceptance): Option<Phases>
  {
    match VerifiedRed(inputs, reds, a)
    case None => None
    case Some(s) =>
      var red := Measured(inputs, runs, Key(RedPhase, a.id), s.snapshotSha);
      var green := Measured(inputs, runs, Key(GreenPhase, a.id), inputs.candidate.sha);
      if red.None? || green.None? then None else Some(Phases(s, red.value, green.value))
  }

  /** The gate of this acceptance: bound to the candidate, with the exit code and log its run measured. */
  predicate IsGateOf(inputs: Inputs, runs: map<Key, OfflineRun>, a: Acceptance, gate: Gate) {
    && gate.taskId == inputs.task.taskId && gate.taskSha == inputs.taskSha
    && gate.headSha == inputs.policy.headSha && Some(gate.patch) == inputs.policy.patch
    && gate.acceptanceId == a.id && gate.command == a.command && gate.expectedExit == a.expectedExit
    && gate.passed == (gate.exitCode == a.expectedExit) && ValidGate(gate)
    && var run := GateRun(inputs, runs, a);
       run.Some? && GateRunBound(inputs, a, run.value)
       && gate.exitCode == run.value.exitCode && gate.evidence == run.value.log
  }

  /** What the record says of the two phases is what their runs and the RED snapshot measured. */
  predicate RecordsPhases(tdd: Tdd, phases: Phases, candidateSnapshot: string) {
    && tdd.red.exitCode == phases.red.exitCode && tdd.red.log == phases.red.log
    && Some(tdd.red.fingerprint) == phases.red.fingerprint
    && tdd.green.exitCode == phases.green.exitCode && tdd.green.log == phases.green.log
    && tdd.manifest == phases.snapshot.testManifest && tdd.testPatch == phases.snapshot.testPatch
    && tdd.redSnapshot == Some(phases.snapshot.snapshotSha) && tdd.greenSnapshot == Some(candidateSnapshot)
  }

  /** The record of this test acceptance, bound to every trusted snapshot and to both of its runs. */
  predicate IsTddOf(
    inputs: Inputs, reds: map<seq<Text>, RedSnapshot>, runs: map<Key, OfflineRun>, a: Acceptance, tdd: Tdd)
  {
    && a.isTest && tdd.version2 && tdd.taskId == inputs.task.taskId && tdd.taskSha == inputs.taskSha
    && tdd.baseSha == inputs.task.baseSha && tdd.headSha == inputs.policy.headSha
    && Some(tdd.patch) == inputs.policy.patch && tdd.acceptanceId == a.id && tdd.command == a.command
    && tdd.testPaths == a.testPaths && tdd.red.testPatch == tdd.testPatch == tdd.green.testPatch
    && ValidTdd(tdd)
    && var phases := PhasesOf(inputs, reds, runs, a);
       phases.Some?
       && PhaseRunsBound(inputs, a, phases.value.snapshot, phases.value.red, phases.value.green)
       && RecordsPhases(tdd, phases.value, inputs.candidate.sha)
  }

  /** The runs behind one acceptance's artifacts, in the order their bindings are kept. */
  function RunsOf(
    inputs: Inputs, reds: map<seq<Text>, RedSnapshot>, runs: map<Key, OfflineRun>, a: Acceptance): seq<OfflineRun>
  {
    var gate, phases := GateRun(inputs, runs, a), PhasesOf(inputs, reds, runs, a);
    (if gate.Some? then [gate.value] else [])
    + (if a.isTest && phases.Some? then [phases.value.red, phases.value.green] else [])
  }

  function AllRuns(
    inputs: Inputs, reds: map<seq<Text>, RedSnapshot>, runs: map<Key, OfflineRun>, acceptance: seq<Acceptance>)
    : seq<OfflineRun>
  {
    if acceptance == [] then []
    else AllRuns(inputs, reds, runs, acceptance[..|acceptance| - 1])
         + RunsOf(inputs, reds, runs, acceptance[|acceptance| - 1])
  }

  ghost predicate Faithful(
    inputs: Inputs, reds: map<seq<Text>, RedSnapshot>, runs: map<Key, OfflineRun>, acceptance: seq<Acceptance>,
    d: Derived)
  {
    && |d.gates| == |acceptance|
    && (forall i :: 0 <= i < |acceptance| ==> IsGateOf(inputs, runs, acceptance[i], d.gates[i]))
    && |d.tdds| == |TestsOf(acceptance)|
    && (forall i :: 0 <= i < |d.tdds| ==> IsTddOf(inputs, reds, runs, TestsOf(acceptance)[i], d.tdds[i]))
    && d.bindings == AllRuns(inputs, reds, runs, acceptance)
  }

  lemma {:induction false} OneFaithful(
    inputs: Inputs, reds: map<seq<Text>, RedSnapshot>, runs: map<Key, OfflineRun>, a: Acceptance, d: Derived)
    requires DeriveOne(inputs, reds, runs, a) == Some(d)
    ensures |d.gates| == 1 && IsGateOf(inputs, runs, a, d.gates[0])
    ensures |d.tdds| == (if a.isTest then 1 else 0) && (a.isTest ==> IsTddOf(inputs, reds, runs, a, d.tdds[0]))
    ensures d.bindings == RunsOf(inputs, reds, runs, a)
  {
  }

  lemma {:induction false} FaithfulAppend(
    inputs: Inputs, reds: map<seq<Text>, RedSnapshot>, runs: map<Key, OfflineRun>, acceptance: seq<Acceptance>,
    a: Acceptance, d: Derived, one: Derived)
    requires Faithful(inputs, reds, runs, acceptance, d)
    requires |one.gates| == 1 && IsGateOf(inputs, runs, a, one.gates[0])
    requires |one.tdds| == (if a.isTest then 1 else 0)
    requires a.isTest ==> IsTddOf(inputs, reds, runs, a, one.tdds[0])
    requires one.bindings == RunsOf(inputs, reds, runs, a)
    ensures Faithful(inputs, reds, runs, acceptance + [a],
                     Derived(d.gates + one.gates, d.tdds + one.tdds, d.bindings + one.bindings))
  {
    assert (acceptance + [a])[..|acceptance|] == acceptance;
    assert TestsOf(acceptance + [a]) == TestsOf(acceptance) + if a.isTest then [a] else [];
  }

  lemma {:induction false} DerivedFaithfully(
    inputs: Inputs, reds: map<seq<Text>, RedSnapshot>, runs: map<Key, OfflineRun>,
    acceptance: seq<Acceptance>, d: Derived)
    requires DeriveAll(inputs, reds, runs, acceptance) == Some(d)
    ensures Faithful(inputs, reds, runs, acceptance, d)
  {
    if acceptance != [] {
      var front, last := acceptance[..|acceptance| - 1], acceptance[|acceptance| - 1];
      assert acceptance == front + [last];
      var before := DeriveAll(inputs, reds, runs, front).value;
      var one := DeriveOne(inputs, reds, runs, last).value;
      DerivedFaithfully(inputs, reds, runs, front, before);
      OneFaithful(inputs, reds, runs, last, one);
      FaithfulAppend(inputs, reds, runs, front, last, before, one);
    }
  }

  function RedsByPaths(inputs: Inputs): map<seq<Text>, RedSnapshot>
    requires Covered(inputs)
  {
    ByKey(inputs.reds, RedPaths)
  }

  function RunsByKey(inputs: Inputs): map<Key, OfflineRun>
    requires Covered(inputs)
  {
    ByKey(inputs.runs, RunKey)
  }

  /** The measured runs stand for raw ones: the one raw run of that phase and acceptance, verified. */
  lemma {:induction false} MeasuredFromRaw(inputs: Inputs, key: Key, execution: string)
    requires Covered(inputs) && Measured(inputs, RunsByKey(inputs), key, execution).Some?
    ensures exists k :: && 0 <= k < |inputs.runs| && RunKey(inputs.runs[k]) == key
                        && Measured(inputs, RunsByKey(inputs), key, execution)
                           == inputs.verify.run(inputs.runs[k], execution)
                        && forall l :: 0 <= l < |inputs.runs| && l != k ==> RunKey(inputs.runs[l]) != key
  {
    var raw := RunsByKey(inputs)[key];
    assert raw in inputs.runs && RunKey(raw) == key;
    var k :| 0 <= k < |inputs.runs| && inputs.runs[k] == raw;
    assert Measured(inputs, RunsByKey(inputs), key, execution) == inputs.verify.run(inputs.runs[k], execution);
  }

  /** One gate per acceptance and one record per test acceptance, in task order, as their runs measured. */
  lemma {:induction false} ArtifactsFaithful(inputs: Inputs, d: Derived)
    requires Artifacts(inputs) == Some(d)
    ensures Covered(inputs)
    ensures Faithful(inputs, RedsByPaths(inputs), RunsByKey(inputs), inputs.task.acceptance, d)
  {
    DerivedFaithfully(inputs, RedsByPaths(inputs), RunsByKey(inputs), inputs.task.acceptance, d);
  }

  // ---------------------------------------------------------------- only real faults remain

  lemma {:induction false} TestsAreAcceptances(acceptance: seq<Acceptance>)
    ensures forall i :: 0 <= i < |TestsOf(acceptance)| ==>
              TestsOf(acceptance)[i] in acceptance && TestsOf(acceptance)[i].isTest
    ensures forall a :: a in acceptance && a.isTest ==> a in TestsOf(acceptance)
  {
    if acceptance != [] {
      var front, last := acceptance[..|acceptance| - 1], acceptance[|acceptance| - 1];
      TestsAreAcceptances(front);
      assert acceptance == front + [last];
    }
  }

  lemma {:induction false} FoundAcceptance(acceptance: seq<Acceptance>, a: Acceptance)
    requires a in acceptance && UniqueIds(acceptance)
    ensures Find(acceptance, a.id) == Some(a)
  {
    var i :| 0 <= i < |acceptance| && acceptance[i] == a;
    var found := Find(acceptance, a.id);
    if found.Some? {
      var j :| 0 <= j < |acceptance| && acceptance[j] == found.value;
    }
  }

  /** What the two runs, the RED snapshot and the diff can really show against a test acceptance. */
  predicate MeasuredTddFault(r: Reason, policy: PolicyReport, a: Acceptance, phases: Phases)
    requires FramableFiles(policy.files)
  {
    match r
    case RedExitCode => phases.red.exitCode !in a.redCodes
    case RedFingerprint => phases.red.fingerprint != a.redFingerprint
    case GreenExitCode => phases.green.exitCode != a.expectedExit
    case PathsAbsent(paths) =>
      paths == PathSet(a.testPaths) - ChangedPaths(policy) && !(PathSet(a.testPaths) <= ChangedPaths(policy))
    case ManifestUnderivable => ManifestOf(policy.files, a.testPaths).None?
    case ManifestMismatch =>
      var manifest := ManifestOf(policy.files, a.testPaths);
      manifest.Some? && manifest != Some(phases.snapshot.testManifest)
    case _ => false
  }

  lemma {:induction false} NothingAbsent(paths: set<Text>, changed: set<Text>)
    ensures paths - changed == {} <==> paths <= changed
  {
    if paths - changed == {} {
      forall p | p in paths ensures p in changed {
        assert p !in paths - changed;
      }
    }
  }

  lemma {:induction false} TddFaultsOf(
    inputs: Inputs, reds: map<seq<Text>, RedSnapshot>, runs: map<Key, OfflineRun>, a: Acceptance, tdd: Tdd, r: Reason)
    requires FramableFiles(inputs.policy.files) && Find(inputs.task.acceptance, a.id) == Some(a)
    requires IsTddOf(inputs, reds, runs, a, tdd)
    ensures TddReason(r, inputs.task, inputs.policy, tdd, inputs.taskSha)
       <==> MeasuredTddFault(r, inputs.policy, a, PhasesOf(inputs, reds, runs, a).value)
  {
    NothingAbsent(PathSet(a.testPaths), ChangedPaths(inputs.policy));
  }

  lemma {:induction false} GateFaultsOf(
    inputs: Inputs, runs: map<Key, OfflineRun>, a: Acceptance, gate: Gate, r: Reason)
    requires Find(inputs.task.acceptance, a.id) == Some(a) && IsGateOf(inputs, runs, a, gate)
    ensures GateReason(r, inputs.task, inputs.policy, gate, inputs.taskSha)
       <==> r == OfGate(a.id, GateFailed) && GateRun(inputs, runs, a).value.exitCode != a.expectedExit
  {
  }

  /**
   A derived record is never misbound: the judge says of it exactly what its runs, its RED snapshot and
   the diff measured.
   */
  lemma {:induction false} DerivedTddFaults(inputs: Inputs, d: Derived, i: nat, r: Reason)
    requires ValidTask(inputs.task) && ValidPolicy(inputs.policy) && Artifacts(inputs) == Some(d)
    requires i < |d.tdds| == |TestsOf(inputs.task.acceptance)|
    ensures var a := TestsOf(inputs.task.acceptance)[i];
            var phases := PhasesOf(inputs, RedsByPaths(inputs), RunsByKey(inputs), a);
            phases.Some? && RecordsPhases(d.tdds[i], phases.value, inputs.candidate.sha)
            && (TddReason(r, inputs.task, inputs.policy, d.tdds[i], inputs.taskSha)
                <==> MeasuredTddFault(r, inputs.policy, a, phases.value))
  {
    ArtifactsFaithful(inputs, d);
    var a := TestsOf(inputs.task.acceptance)[i];
    assert IsTddOf(inputs, RedsByPaths(inputs), RunsByKey(inputs), a, d.tdds[i]);
    TestsAreAcceptances(inputs.task.acceptance);
    FoundAcceptance(inputs.task.acceptance, a);
    TddFaultsOf(inputs, RedsByPaths(inputs), RunsByKey(inputs), a, d.tdds[i], r);
  }

  /** All the judge can say of a derived gate is that its run's exit code was wrong, and then it says it. */
  lemma {:induction false} DerivedGateFaults(inputs: Inputs, d: Derived, i: nat, r: Reason)
    requires ValidTask(inputs.task) && Artifacts(inputs) == Some(d)
    requires i < |d.gates| == |inputs.task.acceptance|
    ensures var a := inputs.task.acceptance[i];
            var run := GateRun(inputs, RunsByKey(inputs), a);
            run.Some?
            && (GateReason(r, inputs.task, inputs.policy, d.gates[i], inputs.taskSha)
                <==> r == OfGate(a.id, GateFailed) && run.value.exitCode != a.expectedExit)
  {
    ArtifactsFaithful(inputs, d);
    var a := inputs.task.acceptance[i];
    assert IsGateOf(inputs, RunsByKey(inputs), a, d.gates[i]);
    FoundAcceptance(inputs.task.acceptance, a);
    GateFaultsOf(inputs, RunsByKey(inputs), a, d.gates[i], r);
  }

  lemma {:induction false} GatesInOrder(gates: seq<Gate>, acceptance: seq<Acceptance>, id: string)
    requires |gates| == |acceptance| && UniqueIds(acceptance)
    requires forall i :: 0 <= i < |gates| ==> gates[i].acceptanceId == acceptance[i].id
    ensures Occurrences(gates, id) == if exists i :: 0 <= i < |acceptance| && acceptance[i].id == id then 1 else 0
  {
    if gates != [] {
      var front := acceptance[..|acceptance| - 1];
      GatesInOrder(gates[..|gates| - 1], front, id);
      if exists i :: 0 <= i < |front| && front[i].id == id {
        var i :| 0 <= i < |front| && front[i].id == id;
        assert acceptance[i].id == id;
      }
      if exists i :: 0 <= i < |acceptance| && acceptance[i].id == id {
        var i :| 0 <= i < |acceptance| && acceptance[i].id == id;
        assert i < |front| ==> front[i].id == id;
      }
    }
  }

  lemma {:induction false} SameIds(gates: seq<Gate>, task: Task)
    requires |gates| == |task.acceptance|
    requires forall i :: 0 <= i < |gates| ==> gates[i].acceptanceId == task.acceptance[i].id
    ensures AcceptanceIds(task) == GateIds(gates)
  {
    forall id ensures id in AcceptanceIds(task) <==> id in GateIds(gates) {
      if id in AcceptanceIds(task) {
        var i :| 0 <= i < |task.acceptance| && task.acceptance[i].id == id;
        assert gates[i].acceptanceId == id;
      }
      if id in GateIds(gates) {
        var i :| 0 <= i < |gates| && gates[i].acceptanceId == id;
        assert task.acceptance[i].id == id;
      }
    }
  }

  /** Gates in task order cover it exactly: none missing, unknown or repeated. */
  lemma {:induction false} InOrderCovers(gates: seq<Gate>, task: Task, r: Reason)
    requires |gates| == |task.acceptance| && UniqueIds(task.acceptance)
    requires forall i :: 0 <= i < |gates| ==> gates[i].acceptanceId == task.acceptance[i].id
    ensures !CoverageReason(r, task, gates)
  {
    SameIds(gates, task);
    forall i | 0 <= i < |gates| ensures Occurrences(gates, gates[i].acceptanceId) == 1 {
      GatesInOrder(gates, task.acceptance, gates[i].acceptanceId);
      assert task.acceptance[i].id == gates[i].acceptanceId;
    }
    assert RepeatedGates(gates) == {};
  }

  /** Derived gates cover the TaskSpec exactly. */
  lemma {:induction false} DerivedGatesCover(inputs: Inputs, d: Derived, r: Reason)
    requires ValidTask(inputs.task) && Artifacts(inputs) == Some(d)
    ensures !CoverageReason(r, inputs.task, d.gates)
  {
    ArtifactsFaithful(inputs, d);
    forall i | 0 <= i < |d.gates| ensures d.gates[i].acceptanceId == inputs.task.acceptance[i].id {
      assert IsGateOf(inputs, RunsByKey(inputs), inputs.task.acceptance[i], d.gates[i]);
    }
    InOrderCovers(d.gates, inputs.task, r);
  }
}
