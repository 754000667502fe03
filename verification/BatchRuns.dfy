/**
 From runs of the reservation table to finalization: whatever else reserves in between, the payloads
 of the two successful reservations and the ledger frozen after them finalize.
 */
module BatchRuns {
  import opened BrokerLedger
  import opened LedgerRuns
  import opened FinalLedger
  import opened Finalization

  /** One reservation by either writer changes the table exactly as `Step` says. */
  method Apply(table: ReservationTable, policy: Policy, event: Event, measured: int)
    requires SchemaOk(table.rows) && KnownRole(event.request.role) && event.now > 0 && measured > 0
    modifies table
    ensures SchemaOk(table.rows) && table.rows == Step(policy, old(table.rows), event)
  {
    match event.writer {
      case Coordinator =>
        var _ := table.ReserveAttempt(policy, event.request, event.now, measured, event.environment);
      case Outer =>
        var _ := table.Reserve(policy, event.request, event.now, measured, event.environment);
    }
  }

  // ---------------------------------------------------------------- one success inside a run

  /** The i-th event is the outer writer's successful reservation for `run`. */
  predicate SucceedsAt(policy: Policy, events: seq<Event>, i: nat, run: Request)
    requires i < |events|
  {
    && events[i].writer.Outer? && events[i].request == run && events[i].environment.Healthy?
    && Admits(policy, Run(policy, events[..i]), run, events[i].now)
  }

  /** The payload `Reserve` returns at the i-th event. */
  predicate PayloadOfEvent(
    policy: Policy, identity: Identity, events: seq<Event>, i: nat, run: Request, payload: OuterReservation)
    requires i < |events|
  {
    var rows := Run(policy, events[..i]);
    && payload == OuterReservation(
         identity, Tokens(OfPacket(rows, run.packet)) + run.tokens, Cost(OfPacket(rows, run.packet)) + run.cost,
         payload.measured, Select(Run(policy, events[..i + 1]), run.packet), events[i].now)
    && payload.measured > 0
  }

  /** The m-th event commits a charge of this packet. */
  predicate ChargesPacket(policy: Policy, events: seq<Event>, m: nat, packet: string)
    requires m < |events|
  {
    && Commits(events[m].environment) && Admitted(policy, Run(policy, events[..m]), events[m])
    && events[m].request.packet == packet
  }

  /** After its success a role of this packet is never charged again. */
  predicate StopsAfter(policy: Policy, events: seq<Event>, i: nat, run: Request) {
    forall m :: i < m < |events| && ChargesPacket(policy, events, m, run.packet) ==>
      events[m].request.role != run.role
  }

  function LogAt(policy: Policy, events: seq<Event>, i: nat, packet: string): seq<Record>
    requires i <= |events|
  {
    OfPacket(Run(policy, events[..i]), packet)
  }

  lemma {:induction false} LogStep(policy: Policy, events: seq<Event>, i: nat, packet: string)
    requires i < |events|
    ensures LogAt(policy, events, i + 1, packet)
         == LogAt(policy, events, i, packet)
            + if ChargesPacket(policy, events, i, packet) then [Charge(events[i].request, events[i].now)] else []
  {
    assert events[..i + 1][..i] == events[..i];
    PacketAppend(Run(policy, events[..i]), Charge(events[i].request, events[i].now), packet);
  }

  /** The packet's log only grows, and what is added later belongs to later charges. */
  lemma {:induction false} LogGrows(policy: Policy, events: seq<Event>, i: nat, j: nat, run: Request)
    requires i < j <= |events| && StopsAfter(policy, events, i, run)
    ensures LogAt(policy, events, i + 1, run.packet) <= LogAt(policy, events, j, run.packet)
    ensures forall k :: |LogAt(policy, events, i + 1, run.packet)| <= k < |LogAt(policy, events, j, run.packet)| ==>
              LogAt(policy, events, j, run.packet)[k].role != run.role
    decreases j
  {
    if j > i + 1 {
      LogGrows(policy, events, i, j - 1, run);
      LogStep(policy, events, j - 1, run.packet);
    }
  }

  /** Reading a packet from its own log or from the whole table is the same. */
  lemma {:induction false} SelectFromLog(rows: seq<Record>, packet: string)
    ensures Select(OfPacket(rows, packet), packet) == Select(rows, packet)
  {
    ProjectionQueries(rows, packet);
    var log := OfPacket(rows, packet);
    assert Attempts(log, packet, Adversary) == Attempts(rows, packet, Adversary);
    assert Attempts(log, packet, Reviewer) == Attempts(rows, packet, Reviewer);
  }

  /** A success appends its own charge to its packet's log. */
  lemma {:induction false} SuccessAppends(policy: Policy, events: seq<Event>, i: nat, run: Request)
    requires i < |events| && SucceedsAt(policy, events, i, run)
    ensures LogAt(policy, events, i + 1, run.packet)
         == LogAt(policy, events, i, run.packet) + [Charge(run, events[i].now)]
  {
    LogStep(policy, events, i, run.packet);
  }

  /** The payload of a success describes the packet's log that ends with it. */
  lemma {:induction false} PayloadDescribesLog(
    policy: Policy, identity: Identity, events: seq<Event>, i: nat, run: Request, payload: OuterReservation,
    after: seq<Record>)
    requires i < |events| && PayloadOfEvent(policy, identity, events, i, run, payload)
    requires after == LogAt(policy, events, i, run.packet) + [Charge(run, events[i].now)]
    requires after == LogAt(policy, events, i + 1, run.packet)
    ensures payload == OuterReservation(
              identity, Tokens(after), Cost(after), payload.measured, Select(after, run.packet), events[i].now)
  {
    TotalsAppend(LogAt(policy, events, i, run.packet), Charge(run, events[i].now));
    SelectFromLog(Run(policy, events[..i + 1]), run.packet);
  }

  /** A success inside a run is a payload of the packet's own history. */
  lemma {:induction false} SuccessIsPayload(
    batch: Batch, events: seq<Event>, i: nat, run: Request, payload: OuterReservation, log: seq<Record>, k: nat)
    requires i < |events| && run.packet == batch.packet
    requires SucceedsAt(batch.policy, events, i, run) && StopsAfter(batch.policy, events, i, run)
    requires PayloadOfEvent(batch.policy, batch.identity, events, i, run, payload)
    requires log == LogAt(batch.policy, events, |events|, batch.packet)
    requires k == |LogAt(batch.policy, events, i + 1, batch.packet)|
    ensures PayloadAt(batch, log, k, run, payload)
  {
    var after := LogAt(batch.policy, events, i + 1, run.packet);
    SuccessAppends(batch.policy, events, i, run);
    PayloadDescribesLog(batch.policy, batch.identity, events, i, run, payload, after);
    LogGrows(batch.policy, events, i, |events|, run);
    PrefixIsPayload(batch, log, after, run, payload);
  }

  lemma {:induction false} PrefixIsPayload(
    batch: Batch, log: seq<Record>, after: seq<Record>, run: Request, payload: OuterReservation)
    requires after <= log && after != [] && after[|after| - 1] == Charge(run, payload.reservationTime)
    requires forall i :: |after| <= i < |log| ==> log[i].role != run.role
    requires payload.measured > 0
    requires payload == OuterReservation(
               batch.identity, Tokens(after), Cost(after), payload.measured, Select(after, batch.packet),
               payload.reservationTime)
    ensures PayloadAt(batch, log, |after|, run, payload)
  {
    assert log[..|after|] == after;
  }

  /**
   In every run of the table, with any other packets and any failed attempts interleaved, the two
   successful payloads and the ledger frozen once nothing more is charged to the packet finalize.
   */
  lemma {:induction false} RunFinalizes(
    batch: Batch, events: seq<Event>, iR: nat, iA: nat,
    reviewer: OuterReservation, adversary: OuterReservation, frozen: Evidence)
    requires PreparedBatch(batch)
    requires forall m :: 0 <= m < |events| ==> ValidatedRequest(events[m].request)
    requires iR < |events| && iA < |events|
    requires SucceedsAt(batch.policy, events, iR, batch.reviewer)
    requires SucceedsAt(batch.policy, events, iA, batch.adversary)
    requires StopsAfter(batch.policy, events, iR, batch.reviewer)
    requires StopsAfter(batch.policy, events, iA, batch.adversary)
    requires PayloadOfEvent(batch.policy, batch.identity, events, iR, batch.reviewer, reviewer)
    requires PayloadOfEvent(batch.policy, batch.identity, events, iA, batch.adversary, adversary)
    requires frozen.measured > 0
    requires frozen == EvidenceOf(batch.identity, batch.policy, batch.packet,
                                  Select(Run(batch.policy, events), batch.packet), frozen.measured)
    ensures Finalizes(batch, reviewer, adversary, frozen)
  {
    var log := LogAt(batch.policy, events, |events|, batch.packet);
    var kR := |LogAt(batch.policy, events, iR + 1, batch.packet)|;
    var kA := |LogAt(batch.policy, events, iA + 1, batch.packet)|;
    assert events[..|events|] == events;
    RunProjectsToLegalLog(batch.policy, events, batch.packet);
    SuccessIsPayload(batch, events, iR, batch.reviewer, reviewer, log, kR);
    SuccessIsPayload(batch, events, iA, batch.adversary, adversary, log, kA);
    SelectFromLog(Run(batch.policy, events), batch.packet);
    NothingAfterBoth(batch, log, kR, kA);
    ProducedFinalizes(batch, reviewer, adversary, frozen, log, kR, kA);
  }

  lemma {:induction false} LegalRole(policy: Policy, packet: string, log: seq<Record>, k: nat)
    requires LegalLog(policy, packet, log)
    ensures k < |log| ==> KnownRole(log[k].role)
  {
    if k < |log| {
      assert LegalAt(policy, packet, log, k);
    }
  }

  /** A legal history holds two roles only, so nothing follows the last records of both. */
  lemma {:induction false} NothingAfterBoth(batch: Batch, log: seq<Record>, kR: nat, kA: nat)
    requires LegalLog(batch.policy, batch.packet, log) && 0 < kR <= |log| && 0 < kA <= |log|
    requires forall i :: kR <= i < |log| ==> log[i].role != Reviewer
    requires forall i :: kA <= i < |log| ==> log[i].role != Adversary
    ensures |log| == if kR < kA then kA else kR
  {
    LegalRole(batch.policy, batch.packet, log, if kR < kA then kA else kR);
  }

  /** The outer writer's reservations that write a given log. */
  function EventsOf(log: seq<Record>): (events: seq<Event>)
    ensures |events| == |log|
    ensures forall i :: 0 <= i < |log| ==> events[i] == Event(Outer, RequestOf(log[i]), log[i].time, Healthy)
  {
    seq(|log|, i requires 0 <= i < |log| => Event(Outer, RequestOf(log[i]), log[i].time, Healthy))
  }

  /** A record of a legal history is what its own reservation adds to the records before it. */
  lemma {:induction false} LegalStep(policy: Policy, packet: string, log: seq<Record>, k: nat)
    requires LegalLog(policy, packet, log) && k < |log|
    ensures Step(policy, log[..k], Event(Outer, RequestOf(log[k]), log[k].time, Healthy)) == log[..k + 1]
  {
    assert LegalAt(policy, packet, log, k);
    assert log[..k + 1] == log[..k] + [log[k]];
  }

  /** Every legal history is what some run of the outer writer leaves in an empty table. */
  lemma {:induction false} LegalLogIsARun(policy: Policy, packet: string, log: seq<Record>)
    requires LegalLog(policy, packet, log)
    ensures Run(policy, EventsOf(log)) == log
  {
    if log != [] {
      var n := |log| - 1;
      LegalPrefix(policy, packet, log, n);
      LegalLogIsARun(policy, packet, log[..n]);
      assert EventsOf(log)[..n] == EventsOf(log[..n]);
      LegalStep(policy, packet, log, n);
      assert log[..n + 1] == log;
    }
  }

  // ---------------------------------------------------------------- the validator on its own

  const SAMPLE_POLICY := Policy(1_088_000, ABSOLUTE_PACKET_COST_MICROUSD, true)
  const SAMPLE_IDENTITY := Identity("/ledger", 1, 1)
  const FIRST := Record("p", Adversary, 1, 12_000, 1, 1)
  const SECOND := Record("p", Reviewer, 1, 12_000, 1, 2)

  function SampleLedger(records: seq<Record>): Evidence {
    EvidenceOf(SAMPLE_IDENTITY, SAMPLE_POLICY, "p", records, 1)
  }

  function SampleExecution(role: Role, own: Record, ledger: Evidence): Execution {
    Execution(role, 1, "p", IdentityDigest(SAMPLE_IDENTITY), SAMPLE_POLICY, 12_000, 1,
              ledger.tokens, ledger.cost, RecordDigest(own), ledger)
  }

  lemma {:induction false} SampleRoles()
    ensures OfRole([FIRST], Adversary) == [FIRST] && OfRole([FIRST], Reviewer) == []
    ensures OfRole([FIRST, SECOND], Adversary) == [FIRST] && OfRole([FIRST, SECOND], Reviewer) == [SECOND]
  {
    RoleAppend([], FIRST, Adversary);
    RoleAppend([], FIRST, Reviewer);
    RoleAppend([FIRST], SECOND, Adversary);
    RoleAppend([FIRST], SECOND, Reviewer);
    assert [] + [FIRST] == [FIRST] && [FIRST] + [SECOND] == [FIRST, SECOND];
  }

  lemma {:induction false} SampleTotals()
    ensures Tokens([FIRST]) == 12_000 && Cost([FIRST]) == 1
    ensures Tokens([FIRST, SECOND]) == 24_000 && Cost([FIRST, SECOND]) == 2
  {
    TotalsAppend([], FIRST);
    TotalsAppend([FIRST], SECOND);
    assert [] + [FIRST] == [FIRST] && [FIRST] + [SECOND] == [FIRST, SECOND];
  }

  lemma {:induction false} SampleLedgersValid()
    ensures ValidatedRecords(SampleLedger([FIRST]), "p", SAMPLE_POLICY)
    ensures ValidatedRecords(SampleLedger([FIRST, SECOND]), "p", SAMPLE_POLICY)
  {
    SampleRoles();
    SampleTotals();
  }

  lemma {:induction false} SampleAccepted(role: Role, own: Record, snapshot: seq<Record>)
    requires (role == Reviewer && own == SECOND) || (role == Adversary && own == FIRST)
    requires snapshot == [FIRST] || snapshot == [FIRST, SECOND]
    ensures ExecutionAccepted(SampleExecution(role, own, SampleLedger(snapshot)), SampleLedger([FIRST, SECOND]))
  {
    SampleRoles();
    SampleLedgersValid();
  }

  /**
   Without the decoder's own-record check the final validator also accepts a pair no history produces:
   here the reviewer's snapshot holds the adversary's charge only.
   */
  lemma {:induction false} ValidatorAloneIsWeaker() returns (executions: seq<Execution>, final: Evidence)
    ensures FinalAccepts(executions, final)
    ensures !OwnRecord(executions[0])
    ensures !exists log, k0, k1 :: Realizes(log, k0, k1, executions, final)
  {
    final := SampleLedger([FIRST, SECOND]);
    executions := [SampleExecution(Reviewer, SECOND, SampleLedger([FIRST])),
                   SampleExecution(Adversary, FIRST, final)];
    SampleTotals();
    SampleLedgersValid();
    SampleAccepted(Reviewer, SECOND, [FIRST]);
    SampleAccepted(Adversary, FIRST, [FIRST, SECOND]);
    RealizableIffOwnRecord(executions, final);
  }
}
