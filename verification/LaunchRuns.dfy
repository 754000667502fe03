/**
 Charge before launch, over whole histories: outer runs that may fail anywhere, interleaved with any
 other reservations of the same table.
 */
module LaunchRuns {
  import opened Wrappers
  import opened BrokerLedger
  import opened LedgerRuns
  import opened Lifecycle
  import opened EgressSession
  import opened OuterExecution

  /** An outer run of `launch` whose provisioning attested a boundary or not, or a bare reservation. */
  datatype Action =
    | OuterRunOf(launch: Launch, ledger: LedgerConditions, attested: bool)
    | Reservation(event: LedgerRuns.Event)

  datatype State = State(rows: seq<BrokerLedger.Record>, launches: seq<Launch>)

  predicate ValidAction(action: Action) {
    match action
    case OuterRunOf(launch, _, _) => ValidatedRequest(launch.request)
    case Reservation(event) => ValidatedRequest(event.request)
  }

  /** What `OuterRun.Execute` and the two writers promise of the table and the launches. */
  ghost function After(policy: Policy, state: State, action: Action): State {
    match action
    case Reservation(event) => State(Step(policy, state.rows, event), state.launches)
    case OuterRunOf(launch, ledger, attested) =>
      State(
        state.rows + (if attested && CommitsCharge(policy, state.rows, launch.request, ledger)
                      then [Charge(launch.request, ledger.now)] else []),
        state.launches + (if attested && Reserves(policy, state.rows, launch.request, ledger)
                          then [launch] else []))
  }

  ghost function AfterAll(policy: Policy, actions: seq<Action>): State {
    if actions == [] then State([], [])
    else After(policy, AfterAll(policy, actions[..|actions| - 1]), actions[|actions| - 1])
  }

  /** One execution of an outer run is exactly one step, on its own table and runtime. */
  method Apply(run: OuterRun, ledger: LedgerConditions, after: Option<Backend>, clock: Clock)
    returns (outcome: RunOutcome, ghost action: Action)
    requires run.Fresh() && SchemaOk(run.table.rows) && KnownRole(run.launch.request.role)
    modifies run, run.runtime, run.table
    ensures action.OuterRunOf? && action.launch == run.launch && action.ledger == ledger
    ensures State(run.table.rows, LaunchesIn(run.runtime.trace))
         == After(run.policy, State(old(run.table.rows), LaunchesIn(old(run.runtime.trace))), action)
    ensures outcome.Completed? ==> action.attested && run.launch in LaunchesIn(run.runtime.trace)
  {
    ghost var attested := Attested(run.view, run.names, run.runtime.script, |run.runtime.trace|).Some?;
    action := OuterRunOf(run.launch, ledger, attested);
    ghost var last;
    outcome, last := run.Execute(ledger, after, clock);
  }

  // ---------------------------------------------------------------- launches inject into charges

  predicate Covers(row: BrokerLedger.Record, request: Request) {
    && row.packet == request.packet && row.role == request.role && row.attempt == request.attempt
    && row.tokens == request.tokens && row.cost == request.cost
  }

  predicate SameAttempt(a: Request, b: Request) {
    a.packet == b.packet && a.role == b.role && a.attempt == b.attempt
  }

  predicate IsCovered(rows: seq<BrokerLedger.Record>, request: Request) {
    exists k :: 0 <= k < |rows| && Covers(rows[k], request)
  }

  /** Every launch has its own committed charge of the same packet, role and attempt. */
  predicate LaunchesCharged(state: State) {
    && (forall i :: 0 <= i < |state.launches| ==> IsCovered(state.rows, state.launches[i].request))
    && NoneRepeated(state.launches)
  }

  lemma {:induction false} StillCovered(
    rows: seq<BrokerLedger.Record>, more: seq<BrokerLedger.Record>, request: Request)
    requires IsCovered(rows, request)
    ensures IsCovered(rows + more, request)
  {
    var k :| 0 <= k < |rows| && Covers(rows[k], request);
    assert Covers((rows + more)[k], request);
  }

  /** An admitted request is no earlier attempt: its slot holds no row yet. */
  lemma {:induction false} AdmittedIsFresh(
    policy: Policy, rows: seq<BrokerLedger.Record>, request: Request, now: int, other: Request)
    requires SchemaOk(rows) && Admits(policy, rows, request, now) && IsCovered(rows, other)
    ensures !SameAttempt(request, other)
  {
    FreshKey(rows, request, now);
    var k :| 0 <= k < |rows| && Covers(rows[k], other);
    var after := rows + [Charge(request, now)];
    assert after[k] == rows[k] && after[|rows|] == Charge(request, now);
    assert !SameKey(after[k], after[|rows|]);
  }

  lemma {:induction false} LaunchKeepsCharged(policy: Policy, state: State, launch: Launch, now: int)
    requires SchemaOk(state.rows) && LaunchesCharged(state) && Admits(policy, state.rows, launch.request, now)
    ensures LaunchesCharged(State(state.rows + [Charge(launch.request, now)], state.launches + [launch]))
  {
    var charge := Charge(launch.request, now);
    var after := State(state.rows + [charge], state.launches + [launch]);
    forall i | 0 <= i < |after.launches| ensures IsCovered(after.rows, after.launches[i].request) {
      if i < |state.launches| {
        StillCovered(state.rows, [charge], state.launches[i].request);
      } else {
        assert Covers(after.rows[|state.rows|], launch.request);
      }
    }
    forall i, j | 0 <= i < j < |after.launches|
      ensures !SameAttempt(after.launches[i].request, after.launches[j].request)
    {
      if j == |state.launches| {
        AdmittedIsFresh(policy, state.rows, launch.request, now, state.launches[i].request);
      }
    }
  }

  lemma {:induction false} ChargeKeepsCharged(state: State, charge: BrokerLedger.Record)
    requires LaunchesCharged(state)
    ensures LaunchesCharged(State(state.rows + [charge], state.launches))
  {
    forall i | 0 <= i < |state.launches| ensures IsCovered(state.rows + [charge], state.launches[i].request) {
      StillCovered(state.rows, [charge], state.launches[i].request);
    }
  }

  lemma {:induction false} ActionKeepsCharged(policy: Policy, state: State, action: Action)
    requires ValidatedPolicy(policy) && ValidAction(action)
    requires Invariant(policy, state.rows) && LaunchesCharged(state)
    ensures Invariant(policy, After(policy, state, action).rows)
    ensures LaunchesCharged(After(policy, state, action))
  {
    match action
    case Reservation(event) =>
      if Commits(event.environment) && Admitted(policy, state.rows, event) {
        StepKeepsInvariant(policy, state.rows, event.request, event.now);
        ChargeKeepsCharged(state, Charge(event.request, event.now));
      }
    case OuterRunOf(launch, ledger, attested) =>
      if attested && CommitsCharge(policy, state.rows, launch.request, ledger) {
        StepKeepsInvariant(policy, state.rows, launch.request, ledger.now);
        if Reserves(policy, state.rows, launch.request, ledger) {
          LaunchKeepsCharged(policy, state, launch, ledger.now);
        } else {
          ChargeKeepsCharged(state, Charge(launch.request, ledger.now));
          assert state.launches + [] == state.launches;
        }
      } else {
        assert state.rows + [] == state.rows && state.launches + [] == state.launches;
      }
  }

  /** In every history, including all failing ones, launches inject into committed reservations. */
  lemma {:induction false} LaunchesAlwaysCharged(policy: Policy, actions: seq<Action>)
    requires ValidatedPolicy(policy)
    requires forall i :: 0 <= i < |actions| ==> ValidAction(actions[i])
    ensures Invariant(policy, AfterAll(policy, actions).rows)
    ensures LaunchesCharged(AfterAll(policy, actions))
  {
    if actions != [] {
      var front := actions[..|actions| - 1];
      LaunchesAlwaysCharged(policy, front);
      ActionKeepsCharged(policy, AfterAll(policy, front), actions[|actions| - 1]);
    }
  }

  // ---------------------------------------------------------------- what that bounds

  function LaunchesOf(launches: seq<Launch>, packet: string, role: Role): seq<Launch> {
    if launches == [] then []
    else
      var last := launches[|launches| - 1];
      LaunchesOf(launches[..|launches| - 1], packet, role)
      + if last.request.packet == packet && last.request.role == role then [last] else []
  }

  predicate AllOf(l: seq<Launch>, launches: seq<Launch>, packet: string, role: Role) {
    forall i :: 0 <= i < |l| ==>
      l[i] in launches && l[i].request.packet == packet && l[i].request.role == role
  }

  predicate DistinctAttempts(l: seq<Launch>) {
    forall i, j :: 0 <= i < j < |l| ==> l[i].request.attempt != l[j].request.attempt
  }

  predicate NoneRepeated(launches: seq<Launch>) {
    forall i, j :: 0 <= i < j < |launches| ==> !SameAttempt(launches[i].request, launches[j].request)
  }

  lemma {:induction false} LaunchesOfContents(launches: seq<Launch>, packet: string, role: Role)
    ensures AllOf(LaunchesOf(launches, packet, role), launches, packet, role)
  {
    if launches != [] {
      var front, last := launches[..|launches| - 1], launches[|launches| - 1];
      LaunchesOfContents(front, packet, role);
      assert launches == front + [last];
    }
  }

  lemma {:induction false} LaunchesOfDistinct(launches: seq<Launch>, packet: string, role: Role)
    requires NoneRepeated(launches)
    ensures DistinctAttempts(LaunchesOf(launches, packet, role))
  {
    if launches != [] {
      var front, last := launches[..|launches| - 1], launches[|launches| - 1];
      LaunchesOfDistinct(front, packet, role);
      LaunchesOfContents(front, packet, role);
      var l := LaunchesOf(front, packet, role);
      if last.request.packet == packet && last.request.role == role {
        forall i | 0 <= i < |l| ensures l[i].request.attempt != last.request.attempt {
          assert l[i] in front;
          var j :| 0 <= j < |front| && front[j] == l[i];
          assert !SameAttempt(launches[j].request, launches[|front|].request);
        }
      }
    }
  }

  lemma {:induction false} FirstOrSecond(state: State, launch: Launch)
    requires forall i :: 0 <= i < |state.rows| ==> CheckOk(state.rows[i])
    requires LaunchesCharged(state) && launch in state.launches
    ensures 1 <= launch.request.attempt <= 2
  {
    var j :| 0 <= j < |state.launches| && state.launches[j] == launch;
    assert IsCovered(state.rows, state.launches[j].request);
    var k :| 0 <= k < |state.rows| && Covers(state.rows[k], launch.request);
  }

  function AttemptAt(l: seq<Launch>, i: nat): int {
    if i < |l| then l[i].request.attempt else 3 + i
  }

  lemma {:induction false} TwoDistinctAttempts(l: seq<Launch>)
    requires DistinctAttempts(l) && forall i :: 0 <= i < |l| ==> 1 <= l[i].request.attempt <= 2
    ensures |l| <= 2
  {
    assert AttemptAt(l, 0) != AttemptAt(l, 1) && AttemptAt(l, 0) != AttemptAt(l, 2);
    assert AttemptAt(l, 1) != AttemptAt(l, 2);
  }

  /** At most two broker containers are ever launched for one role of one packet. */
  lemma {:induction false} AtMostTwoLaunches(policy: Policy, actions: seq<Action>, packet: string, role: Role)
    requires ValidatedPolicy(policy)
    requires forall i :: 0 <= i < |actions| ==> ValidAction(actions[i])
    ensures |LaunchesOf(AfterAll(policy, actions).launches, packet, role)| <= 2
  {
    LaunchesAlwaysCharged(policy, actions);
    var state := AfterAll(policy, actions);
    var l := LaunchesOf(state.launches, packet, role);
    LaunchesOfContents(state.launches, packet, role);
    LaunchesOfDistinct(state.launches, packet, role);
    forall i | 0 <= i < |l| ensures 1 <= l[i].request.attempt <= 2 {
      FirstOrSecond(state, l[i]);
    }
    TwoDistinctAttempts(l);
  }

  function LaunchCost(launches: seq<Launch>, packet: string): int {
    if launches == [] then 0
    else
      var last := launches[|launches| - 1];
      LaunchCost(launches[..|launches| - 1], packet) + if last.request.packet == packet then last.request.cost else 0
  }

  lemma {:induction false} PacketConcat(
    a: seq<BrokerLedger.Record>, b: seq<BrokerLedger.Record>, packet: string)
    ensures OfPacket(a + b, packet) == OfPacket(a, packet) + OfPacket(b, packet)
  {
    if b == [] {
      assert a + b == a;
    } else {
      var front := b[..|b| - 1];
      PacketConcat(a, front, packet);
      assert (a + b)[..|a + b| - 1] == a + front;
    }
  }

  lemma {:induction false} RemoveRow(rows: seq<BrokerLedger.Record>, k: nat, packet: string)
    requires k < |rows|
    ensures Cost(OfPacket(rows, packet))
         == Cost(OfPacket(rows[..k] + rows[k + 1..], packet)) + if rows[k].packet == packet then rows[k].cost else 0
  {
    assert rows == (rows[..k] + [rows[k]]) + rows[k + 1..];
    PacketConcat(rows[..k] + [rows[k]], rows[k + 1..], packet);
    PacketConcat(rows[..k], [rows[k]], packet);
    PacketConcat(rows[..k], rows[k + 1..], packet);
    TotalsConcat(OfPacket(rows[..k] + [rows[k]], packet), OfPacket(rows[k + 1..], packet));
    TotalsConcat(OfPacket(rows[..k], packet), OfPacket([rows[k]], packet));
    TotalsConcat(OfPacket(rows[..k], packet), OfPacket(rows[k + 1..], packet));
  }

  /** The charges of injected launches cost at least what the launches were admitted for. */
  lemma {:induction false} LaunchesCostAtMost(
    rows: seq<BrokerLedger.Record>, launches: seq<Launch>, packet: string)
    requires forall i :: 0 <= i < |rows| ==> rows[i].tokens > 0 && rows[i].cost > 0
    requires LaunchesCharged(State(rows, launches))
    ensures LaunchCost(launches, packet) <= Cost(OfPacket(rows, packet))
    decreases |launches|
  {
    if launches == [] {
      PacketContents(rows, packet);
      TokensNonNegative(OfPacket(rows, packet));
    } else {
      var front, last := launches[..|launches| - 1], launches[|launches| - 1];
      assert IsCovered(rows, last.request);
      var k :| 0 <= k < |rows| && Covers(rows[k], last.request);
      OthersStayCovered(rows, launches, k);
      LaunchesCostAtMost(rows[..k] + rows[k + 1..], front, packet);
      RemoveRow(rows, k, packet);
    }
  }

  lemma {:induction false} OthersStayCovered(rows: seq<BrokerLedger.Record>, launches: seq<Launch>, k: nat)
    requires launches != [] && LaunchesCharged(State(rows, launches))
    requires k < |rows| && Covers(rows[k], launches[|launches| - 1].request)
    ensures LaunchesCharged(State(rows[..k] + rows[k + 1..], launches[..|launches| - 1]))
  {
    var others := rows[..k] + rows[k + 1..];
    forall i | 0 <= i < |launches| - 1 ensures IsCovered(others, launches[i].request) {
      assert IsCovered(State(rows, launches).rows, launches[i].request);
      var j :| 0 <= j < |rows| && Covers(rows[j], launches[i].request);
      assert j != k;
      assert Covers(others[if j < k then j else j - 1], launches[i].request);
    }
  }

  /** The reserved cost of everything launched for a packet stays within the packet cap. */
  lemma {:induction false} LaunchCostWithinCap(policy: Policy, actions: seq<Action>, packet: string)
    requires ValidatedPolicy(policy)
    requires forall i :: 0 <= i < |actions| ==> ValidAction(actions[i])
    ensures LaunchCost(AfterAll(policy, actions).launches, packet) <= policy.costLimit
  {
    LaunchesAlwaysCharged(policy, actions);
    var state := AfterAll(policy, actions);
    assert PacketInvariant(policy, state.rows, packet);
    LaunchesCostAtMost(state.rows, state.launches, packet);
  }
}
