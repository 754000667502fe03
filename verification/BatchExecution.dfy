/**
 The outer executor's whole batch against the coordinator's whole finalizer: both runs on one ledger,
 the ledger frozen after them, and exactly when the evidence of all that is accepted.
 */
module BatchExecution {
  import opened Wrappers
  import opened BrokerLedger
  import opened LedgerRuns
  import opened FinalLedger
  import opened Finalization
  import opened BatchRuns
  import opened Lifecycle
  import opened EgressSession
  import opened OuterExecution
  import opened OuterEvidence

  datatype BatchEvidence = BatchEvidence(reviewer: RunEvidence, adversary: RunEvidence, frozen: Evidence)

  /** The coordinator's finalizer: the ledger and both lifecycles. */
  predicate Accepts(batch: Batch, r: Prepared, a: Prepared, e: BatchEvidence) {
    && Finalizes(batch, e.reviewer.reservation, e.adversary.reservation, e.frozen)
    && CheckerAccepts(r, e.reviewer) && CheckerAccepts(a, e.adversary)
  }

  // ---------------------------------------------------------------- two successes finalize

  function Reservation(request: Request, now: int): LedgerRuns.Event {
    LedgerRuns.Event(Outer, request, now, Healthy)
  }

  /** What a completed run leaves in the table and returns, as the last event of a history. */
  lemma {:induction false} LastSuccess(
    policy: Policy, identity: Identity, history: seq<LedgerRuns.Event>, rows: seq<Record>, run: Request,
    ledger: LedgerConditions, payload: OuterReservation)
    requires rows == LedgerRuns.Run(policy, history) && Reserves(policy, rows, run, ledger) && ledger.measured > 0
    requires PayloadOf(identity, rows, rows + [Charge(run, ledger.now)], run, ledger, payload)
    ensures var events, i := history + [Reservation(run, ledger.now)], |history|;
            && LedgerRuns.Run(policy, events) == rows + [Charge(run, ledger.now)]
            && SucceedsAt(policy, events, i, run) && PayloadOfEvent(policy, identity, events, i, run, payload)
  {
    var events := history + [Reservation(run, ledger.now)];
    RunAppend(policy, history, Reservation(run, ledger.now));
    assert events[..|history|] == history && events[..|history| + 1] == events;
  }

  lemma {:induction false} RunAppend(policy: Policy, history: seq<LedgerRuns.Event>, event: LedgerRuns.Event)
    ensures LedgerRuns.Run(policy, history + [event]) == Step(policy, LedgerRuns.Run(policy, history), event)
  {
    assert (history + [event])[..|history|] == history;
  }

  lemma {:induction false} EarlierSuccess(
    policy: Policy, identity: Identity, events: seq<LedgerRuns.Event>, last: LedgerRuns.Event, i: nat, run: Request,
    payload: OuterReservation)
    requires i < |events|
    requires SucceedsAt(policy, events, i, run) && PayloadOfEvent(policy, identity, events, i, run, payload)
    ensures SucceedsAt(policy, events + [last], i, run)
    ensures PayloadOfEvent(policy, identity, events + [last], i, run, payload)
  {
    assert (events + [last])[..i] == events[..i] && (events + [last])[..i + 1] == events[..i + 1];
  }

  /** The last two events of a history stop both roles. */
  lemma {:induction false} LastTwoStop(
    policy: Policy, history: seq<LedgerRuns.Event>, first: LedgerRuns.Event, second: LedgerRuns.Event)
    requires first.request.role != second.request.role
    ensures var events := history + [first] + [second];
            && StopsAfter(policy, events, |history|, first.request)
            && StopsAfter(policy, events, |history| + 1, second.request)
  {
    var events := history + [first] + [second];
    assert forall m :: |history| < m < |events| ==> m == |history| + 1 && events[m] == second;
  }

  lemma {:induction false} LastTwoFinalize(
    batch: Batch, history: seq<LedgerRuns.Event>, first: LedgerRuns.Event, second: LedgerRuns.Event,
    rows: seq<Record>, reviewer: OuterReservation, adversary: OuterReservation, frozen: Evidence)
    requires ValidatedBatch(batch)
    requires forall m :: 0 <= m < |history| ==> ValidatedRequest(history[m].request)
    requires first.request == batch.reviewer && second.request == batch.adversary
    requires var events := history + [first] + [second];
             && SucceedsAt(batch.policy, events, |history|, batch.reviewer)
             && PayloadOfEvent(batch.policy, batch.identity, events, |history|, batch.reviewer, reviewer)
             && SucceedsAt(batch.policy, events, |history| + 1, batch.adversary)
             && PayloadOfEvent(batch.policy, batch.identity, events, |history| + 1, batch.adversary, adversary)
             && rows == LedgerRuns.Run(batch.policy, events)
    requires frozen.measured > 0
    requires frozen == EvidenceOf(batch.identity, batch.policy, batch.packet, Select(rows, batch.packet),
                                  frozen.measured)
    ensures Finalizes(batch, reviewer, adversary, frozen)
  {
    LastTwoStop(batch.policy, history, first, second);
    RunFinalizes(batch, history + [first] + [second], |history|, |history| + 1, reviewer, adversary, frozen);
  }

  /** Two committed charges, one per role, and the payloads they returned. */
  ghost predicate ChargedTwice(
    batch: Batch, before: seq<Record>, r: LedgerConditions, a: LedgerConditions, reviewer: OuterReservation,
    adversary: OuterReservation, rows: seq<Record>)
  {
    var middle := before + [Charge(batch.reviewer, r.now)];
    && r.measured > 0 && a.measured > 0
    && Reserves(batch.policy, before, batch.reviewer, r)
    && PayloadOf(batch.identity, before, middle, batch.reviewer, r, reviewer)
    && Reserves(batch.policy, middle, batch.adversary, a)
    && rows == middle + [Charge(batch.adversary, a.now)]
    && PayloadOf(batch.identity, middle, rows, batch.adversary, a, adversary)
  }

  ghost predicate Reached(batch: Batch, history: seq<LedgerRuns.Event>, rows: seq<Record>) {
    && (forall m :: 0 <= m < |history| ==> ValidatedRequest(history[m].request))
    && rows == LedgerRuns.Run(batch.policy, history)
  }

  ghost predicate ValidatedBatch(batch: Batch) {
    PreparedBatch(batch) && ValidatedRequest(batch.reviewer) && ValidatedRequest(batch.adversary)
  }

  /** Two successes at the end of any history, and the ledger frozen after them, finalize. */
  lemma {:induction false} SuccessesFinalize(
    batch: Batch, history: seq<LedgerRuns.Event>, before: seq<Record>, r: LedgerConditions, a: LedgerConditions,
    reviewer: OuterReservation, adversary: OuterReservation, rows: seq<Record>, frozen: Evidence)
    requires ValidatedBatch(batch) && Reached(batch, history, before)
    requires ChargedTwice(batch, before, r, a, reviewer, adversary, rows) && frozen.measured > 0
    requires frozen == EvidenceOf(batch.identity, batch.policy, batch.packet, Select(rows, batch.packet),
                                  frozen.measured)
    ensures Finalizes(batch, reviewer, adversary, frozen)
  {
    var first, second := Reservation(batch.reviewer, r.now), Reservation(batch.adversary, a.now);
    var middle := history + [first];
    LastSuccess(batch.policy, batch.identity, history, before, batch.reviewer, r, reviewer);
    LastSuccess(batch.policy, batch.identity, middle, before + [Charge(batch.reviewer, r.now)], batch.adversary, a,
                adversary);
    EarlierSuccess(batch.policy, batch.identity, middle, second, |history|, batch.reviewer, reviewer);
    LastTwoFinalize(batch, history, first, second, rows, reviewer, adversary, frozen);
  }

  // ---------------------------------------------------------------- the whole batch

  /** The run was set up from this part of the prepared batch, on a runtime already probed. */
  ghost predicate SetUp(run: OuterRun, p: Prepared, policy: Policy, request: Request) {
    && run.view == p.View() && run.names == p.names && run.launch == p.launch && run.limits == p.limits
    && run.policy == policy && p.launch.request == request && p.Bounded()
    && run.before.command.command == Probe && ProbeAnswers(p.View(), run.before.command.reply)
  }

  /** What a completed run's evidence is worth to the coordinator. */
  lemma {:induction false} CompletedMeetsChecker(
    run: OuterRun, p: Prepared, policy: Policy, request: Request, e: RunEvidence, start: nat)
    requires SetUp(run, p, policy, request)
    requires Emitted(e, run.names, run.launch, run.runtime.script, start)
    requires RunAnswers(run.view, run.names, run.limits, run.credential, run.runtime.script, start)
    requires e.before == run.before && e.after.backend == run.before.backend
    ensures |e.provisioning| == 10 && |e.cleanup| == 6
    ensures CheckerAccepts(p, e) <==> AcceptConditions(p, e)
  {
    EmittedIsProduced(p, e, run.credential, run.runtime.script, start);
    ProducerMeetsChecker(p, e);
  }

  /** One run completes: its charge commits and the runtime gives the twenty-five answers from `start`. */
  ghost predicate Completes(
    run: OuterRun, rows: seq<Record>, start: nat, ledger: LedgerConditions, after: Option<Backend>)
  {
    && Reserves(run.policy, rows, run.launch.request, ledger)
    && RunAnswers(run.view, run.names, run.limits, run.credential, run.runtime.script, start)
    && after == Some(run.before.backend)
  }

  /** Evidence the checker accepts exactly under its conditions. */
  predicate Judged(p: Prepared, e: RunEvidence) {
    && |e.provisioning| == 10 && |e.cleanup| == 6
    && (CheckerAccepts(p, e) <==> AcceptConditions(p, e))
  }

  /** One run of the batch, as the batch needs it. */
  method CompleteRun(
    run: OuterRun, p: Prepared, ledger: LedgerConditions, after: Option<Backend>, clock: Clock)
    returns (e: Option<RunEvidence>)
    requires SetUp(run, p, run.policy, run.launch.request) && run.Fresh()
    requires SchemaOk(run.table.rows) && KnownRole(run.launch.request.role)
    modifies run, run.runtime, run.table
    ensures SchemaOk(run.table.rows)
    ensures e.Some? <==> Completes(run, old(run.table.rows), |old(run.runtime.trace)|, ledger, after)
    ensures e.Some? ==>
              && run.table.rows == old(run.table.rows) + [Charge(run.launch.request, ledger.now)]
              && |run.runtime.trace| == |old(run.runtime.trace)| + 25
              && PayloadOf(run.table.identity, old(run.table.rows), run.table.rows, run.launch.request, ledger,
                           e.value.reservation)
              && Judged(p, e.value)
  {
    var outcome, _ := run.Execute(ledger, after, clock);
    if !outcome.Completed? {
      return None;
    }
    CompletedMeetsChecker(run, p, run.policy, run.launch.request, outcome.evidence, |old(run.runtime.trace)|);
    return Some(outcome.evidence);
  }

  /** Both runs are set up on one table and one runtime; the table is what some history left. */
  ghost predicate BatchReady(
    batch: Batch, r: Prepared, a: Prepared, reviewer: OuterRun, adversary: OuterRun,
    history: seq<LedgerRuns.Event>)
    reads reviewer, adversary, reviewer.table
  {
    && ValidatedBatch(batch) && Reached(batch, history, reviewer.table.rows)
    && SetUp(reviewer, r, batch.policy, batch.reviewer) && SetUp(adversary, a, batch.policy, batch.adversary)
    && reviewer != adversary && reviewer.Fresh() && adversary.Fresh()
    && reviewer.runtime == adversary.runtime && reviewer.table == adversary.table
    && reviewer.table.identity == batch.identity
  }

  /** What both runs do: each completes on what the one before it left. */
  ghost predicate BothComplete(
    reviewer: OuterRun, adversary: OuterRun, rows: seq<Record>, start: nat, r: LedgerConditions,
    a: LedgerConditions, afterR: Option<Backend>, afterA: Option<Backend>)
  {
    && Completes(reviewer, rows, start, r, afterR)
    && Completes(adversary, rows + [Charge(reviewer.launch.request, r.now)], start + 25, a, afterA)
  }

  method CompleteBoth(
    batch: Batch, r: Prepared, a: Prepared, reviewer: OuterRun, adversary: OuterRun,
    ledgerR: LedgerConditions, ledgerA: LedgerConditions, afterR: Option<Backend>, afterA: Option<Backend>,
    clockR: Clock, clockA: Clock, ghost history: seq<LedgerRuns.Event>)
    returns (result: Option<(RunEvidence, RunEvidence)>)
    requires BatchReady(batch, r, a, reviewer, adversary, history)
    requires ledgerR.measured > 0 && ledgerA.measured > 0
    modifies reviewer, adversary, reviewer.runtime, reviewer.table
    ensures SchemaOk(reviewer.table.rows)
    ensures result.Some? <==>
              BothComplete(reviewer, adversary, old(reviewer.table.rows), |old(reviewer.runtime.trace)|,
                           ledgerR, ledgerA, afterR, afterA)
    ensures result.Some? ==>
              && ChargedTwice(batch, old(reviewer.table.rows), ledgerR, ledgerA, result.value.0.reservation,
                              result.value.1.reservation, reviewer.table.rows)
              && Judged(r, result.value.0) && Judged(a, result.value.1)
  {
    HistoryIsStored(batch, history, reviewer.table.rows);
    var first := CompleteRun(reviewer, r, ledgerR, afterR, clockR);
    if first.None? {
      return None;
    }
    var second := CompleteRun(adversary, a, ledgerA, afterA, clockA);
    return if second.Some? then Some((first.value, second.value)) else None;
  }

  lemma {:induction false} AcceptedByParts(batch: Batch, r: Prepared, a: Prepared, e: BatchEvidence)
    requires Finalizes(batch, e.reviewer.reservation, e.adversary.reservation, e.frozen)
    requires Judged(r, e.reviewer) && Judged(a, e.adversary)
    ensures Accepts(batch, r, a, e) <==> AcceptConditions(r, e.reviewer) && AcceptConditions(a, e.adversary)
  {
  }

  lemma {:induction false} HistoryIsStored(batch: Batch, history: seq<LedgerRuns.Event>, rows: seq<Record>)
    requires ValidatedBatch(batch) && Reached(batch, history, rows)
    ensures SchemaOk(rows)
  {
    RunKeepsInvariant(batch.policy, history);
  }

  /** After two admitted charges the packet's rows build. */
  lemma {:induction false} FrozenExists(
    batch: Batch, history: seq<LedgerRuns.Event>, before: seq<Record>, r: LedgerConditions, a: LedgerConditions,
    reviewer: OuterReservation, adversary: OuterReservation, rows: seq<Record>)
    requires ValidatedBatch(batch) && Reached(batch, history, before)
    requires ChargedTwice(batch, before, r, a, reviewer, adversary, rows)
    ensures Select(rows, batch.packet) != [] && BuildOk(batch.policy, batch.packet, Select(rows, batch.packet))
  {
    var middle := before + [Charge(batch.reviewer, r.now)];
    RunKeepsInvariant(batch.policy, history);
    StepKeepsInvariant(batch.policy, before, batch.reviewer, r.now);
    StepKeepsInvariant(batch.policy, middle, batch.adversary, a.now);
    InvariantBuilds(batch.policy, rows, batch.packet);
    SelectContents(rows, batch.packet);
    assert rows[|middle|] in rows;
  }

  /** Evidence the whole finalizer accepts exactly under the conditions of the two lifecycles. */
  predicate JudgedWhole(batch: Batch, r: Prepared, a: Prepared, e: BatchEvidence) {
    && Judged(r, e.reviewer) && Judged(a, e.adversary)
    && (Accepts(batch, r, a, e) <==> AcceptConditions(r, e.reviewer) && AcceptConditions(a, e.adversary))
  }

  lemma {:induction false} FrozenJudged(
    batch: Batch, r: Prepared, a: Prepared, e: BatchEvidence, rows: seq<Record>, history: seq<LedgerRuns.Event>,
    before: seq<Record>, ledgerR: LedgerConditions, ledgerA: LedgerConditions)
    requires ValidatedBatch(batch) && Reached(batch, history, before)
    requires ChargedTwice(batch, before, ledgerR, ledgerA, e.reviewer.reservation, e.adversary.reservation, rows)
    requires Judged(r, e.reviewer) && Judged(a, e.adversary) && e.frozen.measured > 0
    requires e.frozen == EvidenceOf(batch.identity, batch.policy, batch.packet, Select(rows, batch.packet),
                                    e.frozen.measured)
    ensures JudgedWhole(batch, r, a, e)
  {
    SuccessesFinalize(batch, history, before, ledgerR, ledgerA, e.reviewer.reservation, e.adversary.reservation,
                      rows, e.frozen);
    AcceptedByParts(batch, r, a, e);
  }

  /** The ledger is frozen once both charges are in it; only the environment can keep it from that. */
  method Freeze(
    batch: Batch, r: Prepared, a: Prepared, first: RunEvidence, second: RunEvidence, table: ReservationTable,
    measured: int, environment: Environment, ghost history: seq<LedgerRuns.Event>, ghost before: seq<Record>,
    ghost ledgerR: LedgerConditions, ghost ledgerA: LedgerConditions)
    returns (result: Option<BatchEvidence>)
    requires ValidatedBatch(batch) && Reached(batch, history, before) && table.identity == batch.identity
    requires ChargedTwice(batch, before, ledgerR, ledgerA, first.reservation, second.reservation, table.rows)
    requires SchemaOk(table.rows) && measured > 0 && Judged(r, first) && Judged(a, second)
    ensures result.Some? <==> environment.Healthy?
    ensures result.Some? ==> JudgedWhole(batch, r, a, result.value)
  {
    FrozenExists(batch, history, before, ledgerR, ledgerA, first.reservation, second.reservation, table.rows);
    var frozen := table.MeasureFrozen(batch.policy, batch.packet, measured, environment);
    if frozen.None? {
      return None;
    }
    result := Some(BatchEvidence(first, second, frozen.value));
    FrozenJudged(batch, r, a, result.value, table.rows, history, before, ledgerR, ledgerA);
  }

  /**
   Both runs and the frozen ledger, in the order of the prepared batch.  Evidence comes back exactly
   when both runs complete and the ledger can be read once more, and the coordinator accepts the whole
   of it exactly when both runs meet its acceptance conditions: the ledger side never refuses.
   */
  method ExecuteBatch(
    batch: Batch, r: Prepared, a: Prepared, reviewer: OuterRun, adversary: OuterRun,
    ledgerR: LedgerConditions, ledgerA: LedgerConditions, afterR: Option<Backend>, afterA: Option<Backend>,
    clockR: Clock, clockA: Clock, measured: int, environment: Environment, ghost history: seq<LedgerRuns.Event>)
    returns (result: Option<BatchEvidence>)
    requires BatchReady(batch, r, a, reviewer, adversary, history)
    requires ledgerR.measured > 0 && ledgerA.measured > 0 && measured > 0
    modifies reviewer, adversary, reviewer.runtime, reviewer.table
    ensures result.Some? <==>
              && BothComplete(reviewer, adversary, old(reviewer.table.rows), |old(reviewer.runtime.trace)|,
                              ledgerR, ledgerA, afterR, afterA)
              && environment.Healthy?
    ensures result.Some? ==> JudgedWhole(batch, r, a, result.value)
  {
    ghost var before := reviewer.table.rows;
    var both := CompleteBoth(batch, r, a, reviewer, adversary, ledgerR, ledgerA, afterR, afterA, clockR, clockA,
                             history);
    if both.None? {
      return None;
    }
    result := Freeze(batch, r, a, both.value.0, both.value.1, reviewer.table, measured, environment, history,
                     before, ledgerR, ledgerA);
  }
}
