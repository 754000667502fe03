/**
 Finalization of the outer executor's evidence: the frozen ledger, the two reservation payloads and
 the final validator together accept exactly what a legal reservation history produces.
 */
module Finalization {
  import opened BrokerLedger
  import opened LedgerRuns
  import opened FinalLedger

  // ---------------------------------------------------------------- the decoder

  predicate KeyLess(a: Record, b: Record) {
    || (a.role.Adversary? && b.role.Reviewer?)
    || (a.role == b.role && a.attempt <= b.attempt)
  }

  /** `records == sorted(records, key=(role, attempt))` */
  predicate SortedRows(rows: seq<Record>) {
    forall i, j :: 0 <= i < j < |rows| ==> KeyLess(rows[i], rows[j])
  }

  predicate ReservationDecodes(policy: Policy, run: Request, payload: OuterReservation, final: Evidence) {
    && payload.records != []
    && SortedRows(payload.records)
    && Slot(payload.records, run.packet, run.role, run.attempt) == [Charge(run, payload.reservationTime)]
    && payload.identity == final.identity
    && payload.measured > 0
    && BuildOk(policy, run.packet, payload.records)
    && payload.cumulativeTokens == Tokens(payload.records)
    && payload.cumulativeCost == Cost(payload.records)
  }

  /** The typed execution that finalization derives from one run and its reservation payload. */
  function ExecutionOf(policy: Policy, run: Request, payload: OuterReservation): Execution {
    Execution(run.role, run.attempt, run.packet, IdentityDigest(payload.identity), policy,
              run.tokens, run.cost, payload.cumulativeTokens, payload.cumulativeCost,
              RecordDigest(Charge(run, payload.reservationTime)),
              EvidenceOf(payload.identity, policy, run.packet, payload.records, payload.measured))
  }

  predicate FrozenDecodes(policy: Policy, packet: string, identitySha: Digest, frozen: Evidence) {
    && frozen.records != []
    && ValidatedRecords(frozen, packet, policy)
    && frozen.identitySha == identitySha
  }

  datatype Batch = Batch(policy: Policy, packet: string, identity: Identity, reviewer: Request, adversary: Request)

  /** What preparing a batch guarantees. */
  predicate PreparedBatch(batch: Batch) {
    && ValidatedPolicy(batch.policy)
    && IdentityOk(batch.identity)
    && batch.reviewer.role == Reviewer && batch.adversary.role == Adversary
    && batch.reviewer.packet == batch.packet && batch.adversary.packet == batch.packet
  }

  predicate Finalizes(batch: Batch, reviewer: OuterReservation, adversary: OuterReservation, frozen: Evidence) {
    && FrozenDecodes(batch.policy, batch.packet, IdentityDigest(batch.identity), frozen)
    && ReservationDecodes(batch.policy, batch.reviewer, reviewer, frozen)
    && ReservationDecodes(batch.policy, batch.adversary, adversary, frozen)
    && FinalAccepts([ExecutionOf(batch.policy, batch.reviewer, reviewer),
                     ExecutionOf(batch.policy, batch.adversary, adversary)], frozen)
  }

  // ---------------------------------------------------------------- what a history produces

  /** The payload of the successful reservation that is the `k`-th of the history. */
  ghost predicate PayloadAt(batch: Batch, log: seq<Record>, k: nat, run: Request, payload: OuterReservation) {
    && 0 < k <= |log|
    && log[k - 1] == Charge(run, payload.reservationTime)
    && (forall i :: k <= i < |log| ==> log[i].role != run.role)
    && payload == OuterReservation(
         batch.identity, Tokens(log[..k]), Cost(log[..k]), payload.measured,
         Select(log[..k], batch.packet), payload.reservationTime)
    && payload.measured > 0
  }

  /**
   `log` is a legal history of the packet; the reviewer succeeded at its `kR`-th reservation, the
   adversary at its `kA`-th, neither reserved again, and the ledger was frozen after both.
   */
  ghost predicate Produced(
    batch: Batch, reviewer: OuterReservation, adversary: OuterReservation, frozen: Evidence,
    log: seq<Record>, kR: nat, kA: nat)
  {
    && LegalLog(batch.policy, batch.packet, log)
    && PayloadAt(batch, log, kR, batch.reviewer, reviewer)
    && PayloadAt(batch, log, kA, batch.adversary, adversary)
    && |log| == (if kR < kA then kA else kR)
    && frozen == EvidenceOf(batch.identity, batch.policy, batch.packet,
                            Select(log, batch.packet), frozen.measured)
    && frozen.measured > 0
  }

  // ---------------------------------------------------------------- selections of a legal history

  lemma {:induction false} LegalPrefix(policy: Policy, packet: string, log: seq<Record>, k: nat)
    requires LegalLog(policy, packet, log) && k <= |log|
    ensures LegalLog(policy, packet, log[..k])
  {
    forall i | 0 <= i < k ensures LegalAt(policy, packet, log[..k], i) {
      assert LegalAt(policy, packet, log, i);
      assert log[..k][..i] == log[..i];
    }
  }

  lemma {:induction false} SelectRoles(policy: Policy, packet: string, log: seq<Record>)
    requires ValidatedPolicy(policy) && LegalLog(policy, packet, log)
    ensures BuildOk(policy, packet, log)
    ensures OfRole(Select(log, packet), Adversary) == OfRole(log, Adversary)
    ensures OfRole(Select(log, packet), Reviewer) == OfRole(log, Reviewer)
    ensures Select(log, packet) == OfRole(log, Adversary) + OfRole(log, Reviewer)
  {
    BuildIffLegalHistory(policy, packet, log);
    AttemptsInListOrder(packet, log, Adversary);
    AttemptsInListOrder(packet, log, Reviewer);
    SelectByRole(log, packet);
  }

  /** The selection of a legal history has its records and totals, and the builder accepts it. */
  lemma {:induction false} SelectOfHistory(policy: Policy, packet: string, log: seq<Record>, rows: seq<Record>)
    requires ValidatedPolicy(policy) && LegalLog(policy, packet, log)
    requires rows == Select(log, packet)
    ensures BuildOk(policy, packet, rows)
    ensures multiset(rows) == multiset(log) && Tokens(rows) == Tokens(log) && Cost(rows) == Cost(log)
    ensures Within(rows, log) && Within(log, rows)
  {
    SelectRoles(policy, packet, log);
    SelectTotals(log, packet);
    WholePacket(packet, log);
    MultisetSplit(log);
    forall i | 0 <= i < |rows| ensures rows[i] in log {
      assert rows[i] in multiset(rows);
    }
    forall i | 0 <= i < |log| ensures log[i] in rows {
      assert log[i] in multiset(log);
    }
  }

  lemma {:induction false} MultisetSplit(log: seq<Record>)
    requires forall i :: 0 <= i < |log| ==> KnownRole(log[i].role)
    ensures multiset(OfRole(log, Adversary) + OfRole(log, Reviewer)) == multiset(log)
  {
    RolesPartition(log);
  }

  lemma {:induction false} NoneLater(log: seq<Record>, k: nat, role: Role)
    requires k <= |log| && forall i :: k <= i < |log| ==> log[i].role != role
    ensures OfRole(log, role) == OfRole(log[..k], role)
  {
    if k < |log| {
      NoneLater(log[..|log| - 1], k, role);
      assert log[..|log| - 1][..k] == log[..k];
    } else {
      assert log[..k] == log;
    }
  }

  /** The reserve rule makes the record it admits the last attempt of its role so far. */
  lemma {:induction false} AdmittedIsLastAttempt(
    policy: Policy, packet: string, before: seq<Record>, own: Record, mine: seq<Record>)
    requires BuildOk(policy, packet, before) && KnownRole(own.role) && own.packet == packet
    requires NextAttempt(before, RequestOf(own)) && mine == OfRole(before + [own], own.role)
    ensures mine != [] && mine[|mine| - 1] == own && |mine| == own.attempt && Contiguous(mine)
  {
    RoleAppend(before, own, own.role);
    AttemptsInListOrder(packet, before, own.role);
  }

  /** At a role's last reservation its list of attempts ends with that reservation. */
  lemma {:induction false} LastOfRole(policy: Policy, packet: string, log: seq<Record>, k: nat, mine: seq<Record>)
    requires ValidatedPolicy(policy) && LegalLog(policy, packet, log) && 0 < k <= |log|
    requires forall i :: k <= i < |log| ==> log[i].role != log[k - 1].role
    requires mine == OfRole(log, log[k - 1].role)
    ensures mine != [] && mine[|mine| - 1] == log[k - 1] && |mine| == log[k - 1].attempt
    ensures Contiguous(mine)
  {
    var before, own := log[..k - 1], log[k - 1];
    assert log[..k] == before + [own];
    NoneLater(log, k, own.role);
    assert LegalAt(policy, packet, log, k - 1);
    LegalPrefix(policy, packet, log, k - 1);
    BuildIffLegalHistory(policy, packet, before);
    AdmittedIsLastAttempt(policy, packet, before, own, mine);
  }

  // ---------------------------------------------------------------- completeness

  lemma {:induction false} PrefixTokens(log: seq<Record>, k: nat)
    requires k <= |log| && forall i :: 0 <= i < |log| ==> log[i].tokens > 0
    ensures Tokens(log[..k]) + (|log| - k) <= Tokens(log)
  {
    if k < |log| {
      var front := log[..|log| - 1];
      PrefixTokens(front, k);
      assert front[..k] == log[..k];
    } else {
      assert log[..k] == log;
    }
  }

  /** A snapshot inside a history holds records of the whole history only. */
  lemma {:induction false} SnapshotWithin(batch: Batch, log: seq<Record>, k: nat)
    requires PreparedBatch(batch) && LegalLog(batch.policy, batch.packet, log) && k <= |log|
    ensures Within(Select(log[..k], batch.packet), Select(log, batch.packet))
  {
    var rows, all := Select(log[..k], batch.packet), Select(log, batch.packet);
    LegalPrefix(batch.policy, batch.packet, log, k);
    SelectOfHistory(batch.policy, batch.packet, log[..k], rows);
    SelectOfHistory(batch.policy, batch.packet, log, all);
    forall i | 0 <= i < |rows| ensures rows[i] in all {
      assert rows[i] in log[..k];
      assert rows[i] in log;
      var j :| 0 <= j < |log| && log[j] == rows[i];
    }
  }

  /** The evidence of a snapshot re-derives. */
  lemma {:induction false} SnapshotValidated(batch: Batch, log: seq<Record>, k: nat, measured: int)
    requires PreparedBatch(batch) && LegalLog(batch.policy, batch.packet, log) && k <= |log| && measured > 0
    ensures ValidatedRecords(
              EvidenceOf(batch.identity, batch.policy, batch.packet, Select(log[..k], batch.packet), measured),
              batch.packet, batch.policy)
    ensures Tokens(Select(log[..k], batch.packet)) == Tokens(log[..k])
    ensures Cost(Select(log[..k], batch.packet)) == Cost(log[..k])
  {
    var rows := Select(log[..k], batch.packet);
    LegalPrefix(batch.policy, batch.packet, log, k);
    SelectOfHistory(batch.policy, batch.packet, log[..k], rows);
    TokensNonNegative(rows);
  }

  lemma {:induction false} AcceptedByParts(
    policy: Policy, run: Request, payload: OuterReservation, frozen: Evidence, mine: seq<Record>)
    requires mine == OfRole(frozen.records, run.role) && Contiguous(mine)
    requires |mine| == run.attempt > 0 && mine[|mine| - 1] == Charge(run, payload.reservationTime)
    requires frozen.packet == run.packet && frozen.policy == policy
    requires frozen.identitySha == IdentityDigest(payload.identity)
    requires payload.cumulativeTokens == Tokens(payload.records) && payload.cumulativeCost == Cost(payload.records)
    requires ValidatedRecords(
               EvidenceOf(payload.identity, policy, run.packet, payload.records, payload.measured), run.packet, policy)
    requires Within(payload.records, frozen.records)
    ensures ExecutionAccepted(ExecutionOf(policy, run, payload), frozen)
  {
  }

  /** One side of a produced pair passes its part of the final validator and of the decoder. */
  lemma {:induction false} ProducedSideAccepted(
    batch: Batch, frozen: Evidence, log: seq<Record>, k: nat, run: Request, payload: OuterReservation)
    requires PreparedBatch(batch) && LegalLog(batch.policy, batch.packet, log)
    requires run.packet == batch.packet && KnownRole(run.role)
    requires PayloadAt(batch, log, k, run, payload)
    requires frozen == EvidenceOf(batch.identity, batch.policy, batch.packet,
                                  Select(log, batch.packet), frozen.measured)
    ensures ExecutionAccepted(ExecutionOf(batch.policy, run, payload), frozen)
  {
    var mine := OfRole(frozen.records, run.role);
    SelectRoles(batch.policy, batch.packet, log);
    LastOfRole(batch.policy, batch.packet, log, k, mine);
    SnapshotValidated(batch, log, k, payload.measured);
    SnapshotWithin(batch, log, k);
    AcceptedByParts(batch.policy, run, payload, frozen, mine);
  }

  lemma {:induction false} SelectSorted(policy: Policy, packet: string, log: seq<Record>)
    requires ValidatedPolicy(policy) && LegalLog(policy, packet, log)
    ensures SortedRows(Select(log, packet))
  {
    SelectRoles(policy, packet, log);
    AllFromRole(log, Adversary);
    AllFromRole(log, Reviewer);
    SortedHalves(OfRole(log, Adversary), OfRole(log, Reviewer));
  }

  lemma {:induction false} SortedHalves(a: seq<Record>, r: seq<Record>)
    requires Contiguous(a) && Contiguous(r)
    requires forall i :: 0 <= i < |a| ==> a[i].role == Adversary
    requires forall i :: 0 <= i < |r| ==> r[i].role == Reviewer
    ensures SortedRows(a + r)
  {
  }

  lemma {:induction false} SelectSlot(policy: Policy, packet: string, log: seq<Record>, k: nat)
    requires ValidatedPolicy(policy) && LegalLog(policy, packet, log) && 0 < k <= |log|
    ensures Slot(Select(log[..k], packet), packet, log[k - 1].role, log[k - 1].attempt) == [log[k - 1]]
  {
    var own := log[k - 1];
    LegalPrefix(policy, packet, log, k);
    var rows := Select(log[..k], packet);
    SelectRoles(policy, packet, log[..k]);
    LastOfRole(policy, packet, log[..k], k, OfRole(rows, own.role));
    SelectOfHistory(policy, packet, log[..k], rows);
    AttemptsInListOrder(packet, rows, own.role);
    SlotOfContiguous(rows, packet, own);
  }

  /** A contiguous list split by attempt number is split at its first record. */
  lemma {:induction false} SplitByAttempt(first: seq<Record>, second: seq<Record>, all: seq<Record>)
    requires all == first + second && Contiguous(all)
    requires forall i :: 0 <= i < |first| ==> first[i].attempt == 1
    requires forall i :: 0 <= i < |second| ==> second[i].attempt == 2
    ensures |all| == 1 ==> first == [all[0]]
    ensures |all| == 2 ==> second == [all[1]]
  {
    if |all| > 0 {
      assert all[0].attempt == 1 && all[|all| - 1].attempt == |all|;
    }
  }

  lemma {:induction false} SlotOfContiguous(rows: seq<Record>, packet: string, own: Record)
    requires Contiguous(Attempts(rows, packet, own.role)) && 1 <= own.attempt <= 2
    requires |Attempts(rows, packet, own.role)| == own.attempt
    requires Attempts(rows, packet, own.role)[own.attempt - 1] == own
    ensures Slot(rows, packet, own.role, own.attempt) == [own]
  {
    var first, second := Slot(rows, packet, own.role, 1), Slot(rows, packet, own.role, 2);
    SlotContents(rows, packet, own.role, 1);
    SlotContents(rows, packet, own.role, 2);
    forall i | 0 <= i < |first| ensures first[i].attempt == 1 { assert first[i] in first; }
    forall i | 0 <= i < |second| ensures second[i].attempt == 2 { assert second[i] in second; }
    SplitByAttempt(first, second, Attempts(rows, packet, own.role));
  }

  lemma {:induction false} ProducedSideDecodes(
    batch: Batch, frozen: Evidence, log: seq<Record>, k: nat, run: Request, payload: OuterReservation)
    requires PreparedBatch(batch) && LegalLog(batch.policy, batch.packet, log)
    requires run.packet == batch.packet && KnownRole(run.role)
    requires PayloadAt(batch, log, k, run, payload)
    requires frozen.identity == batch.identity
    ensures ReservationDecodes(batch.policy, run, payload, frozen)
  {
    LegalPrefix(batch.policy, batch.packet, log, k);
    SelectSlot(batch.policy, batch.packet, log, k);
    SelectSorted(batch.policy, batch.packet, log[..k]);
    SelectOfHistory(batch.policy, batch.packet, log[..k], payload.records);
  }

  /** The later success saw the final ledger; the earlier one saw strictly fewer tokens. */
  lemma {:induction false} ProducedTotals(
    batch: Batch, reviewer: OuterReservation, adversary: OuterReservation, frozen: Evidence,
    log: seq<Record>, kR: nat, kA: nat)
    requires PreparedBatch(batch)
    requires Produced(batch, reviewer, adversary, frozen, log, kR, kA)
    ensures frozen.tokens == Tokens(log) && 0 < frozen.tokens && frozen.records != []
    ensures kR < kA ==> reviewer.cumulativeTokens < frozen.tokens == adversary.cumulativeTokens
    ensures kR >= kA ==> adversary.cumulativeTokens < frozen.tokens == reviewer.cumulativeTokens
    ensures kR < kA ==> adversary.records == frozen.records
    ensures kR >= kA ==> reviewer.records == frozen.records
  {
    SelectOfHistory(batch.policy, batch.packet, log, frozen.records);
    BuildIffLegalHistory(batch.policy, batch.packet, log);
    assert log[kR - 1].role != log[kA - 1].role;
    PrefixTokens(log, kR);
    PrefixTokens(log, kA);
    TokensNonNegative(log);
    assert log[..|log|] == log;
  }

  lemma {:induction false} FrozenHistoryDecodes(batch: Batch, frozen: Evidence, log: seq<Record>)
    requires PreparedBatch(batch) && LegalLog(batch.policy, batch.packet, log) && log != []
    requires frozen == EvidenceOf(batch.identity, batch.policy, batch.packet,
                                  Select(log, batch.packet), frozen.measured)
    requires frozen.measured > 0
    ensures FrozenDecodes(batch.policy, batch.packet, IdentityDigest(batch.identity), frozen)
  {
    SelectOfHistory(batch.policy, batch.packet, log, frozen.records);
    TokensNonNegative(frozen.records);
    assert log[0] in frozen.records;
  }

  lemma {:induction false} ProducedAccepted(
    batch: Batch, reviewer: OuterReservation, adversary: OuterReservation, frozen: Evidence,
    log: seq<Record>, kR: nat, kA: nat)
    requires PreparedBatch(batch)
    requires Produced(batch, reviewer, adversary, frozen, log, kR, kA)
    ensures FinalAccepts([ExecutionOf(batch.policy, batch.reviewer, reviewer),
                          ExecutionOf(batch.policy, batch.adversary, adversary)], frozen)
  {
    ProducedSideAccepted(batch, frozen, log, kR, batch.reviewer, reviewer);
    ProducedSideAccepted(batch, frozen, log, kA, batch.adversary, adversary);
    ProducedTotals(batch, reviewer, adversary, frozen, log, kR, kA);
    FrozenHistoryDecodes(batch, frozen, log);
  }

  /** Completeness: every produced pair of payloads and frozen ledger is accepted. */
  lemma {:induction false} ProducedFinalizes(
    batch: Batch, reviewer: OuterReservation, adversary: OuterReservation, frozen: Evidence,
    log: seq<Record>, kR: nat, kA: nat)
    requires PreparedBatch(batch)
    requires Produced(batch, reviewer, adversary, frozen, log, kR, kA)
    ensures Finalizes(batch, reviewer, adversary, frozen)
  {
    ProducedSideDecodes(batch, frozen, log, kR, batch.reviewer, reviewer);
    ProducedSideDecodes(batch, frozen, log, kA, batch.adversary, adversary);
    ProducedAccepted(batch, reviewer, adversary, frozen, log, kR, kA);
    FrozenHistoryDecodes(batch, frozen, log);
  }

  // ---------------------------------------------------------------- soundness

  /** Sorted by (role, attempt) means the adversary's records, then the reviewer's. */
  lemma {:induction false} SortedSplit(rows: seq<Record>)
    requires SortedRows(rows) && forall i :: 0 <= i < |rows| ==> KnownRole(rows[i].role)
    ensures rows == OfRole(rows, Adversary) + OfRole(rows, Reviewer)
  {
    if rows != [] {
      var front, last := rows[..|rows| - 1], rows[|rows| - 1];
      assert rows == front + [last];
      SortedSplit(front);
      RoleAppend(front, last, Adversary);
      RoleAppend(front, last, Reviewer);
      if last.role == Adversary {
        assert forall i :: 0 <= i < |front| ==> KeyLess(rows[i], rows[|rows| - 1]);
        NoneOf(front, Reviewer);
      }
    }
  }

  lemma {:induction false} SameMultisetWithin(a: seq<Record>, b: seq<Record>)
    requires multiset(a) == multiset(b)
    ensures Within(a, b)
  {
    forall i | 0 <= i < |a| ensures a[i] in b {
      assert a[i] in multiset(a);
    }
  }

  /** The same records, each list contiguous per role, give the same list per role. */
  lemma {:induction false} SameContentsSameRole(a: seq<Record>, b: seq<Record>, role: Role)
    requires multiset(a) == multiset(b)
    requires Contiguous(OfRole(a, role)) && Contiguous(OfRole(b, role))
    ensures OfRole(a, role) == OfRole(b, role)
  {
    SameMultisetWithin(a, b);
    SameMultisetWithin(b, a);
    SnapshotPrefix(a, b, role);
    SnapshotPrefix(b, a, role);
  }

  /** An accepted sorted list with the records of a legal history is its selection. */
  lemma {:induction false} SortedIsSelection(policy: Policy, packet: string, log: seq<Record>, rows: seq<Record>)
    requires ValidatedPolicy(policy) && LegalLog(policy, packet, log)
    requires BuildOk(policy, packet, rows) && SortedRows(rows) && multiset(rows) == multiset(log)
    ensures rows == Select(log, packet)
    ensures Tokens(rows) == Tokens(log) && Cost(rows) == Cost(log)
  {
    SelectRoles(policy, packet, log);
    SameContentsSameRole(rows, log, Adversary);
    SameContentsSameRole(rows, log, Reviewer);
    SortedSplit(rows);
    SelectOfHistory(policy, packet, log, rows);
  }

  lemma {:induction false} OneSlotRecord(rows: seq<Record>, packet: string, record: Record, own: Record)
    requires Slot(rows, packet, own.role, own.attempt) == [own]
    requires record in rows && record.packet == packet
    requires record.role == own.role && record.attempt == own.attempt
    ensures record == own
  {
    SlotContents(rows, packet, own.role, own.attempt);
    assert record in [own];
  }

  /** A realized success of a decoded execution produces exactly its payload. */
  lemma {:induction false} SucceededIsPayload(
    batch: Batch, frozen: Evidence, log: seq<Record>, k: nat, run: Request, payload: OuterReservation)
    requires PreparedBatch(batch) && LegalLog(batch.policy, batch.packet, log)
    requires run.packet == batch.packet && frozen.identity == batch.identity
    requires ReservationDecodes(batch.policy, run, payload, frozen)
    requires SucceededAt(log, k, ExecutionOf(batch.policy, run, payload))
    ensures PayloadAt(batch, log, k, run, payload)
  {
    var own := log[k - 1];
    assert own in log[..k];
    assert LegalAt(batch.policy, batch.packet, log, k - 1);
    SameMultisetWithin(log[..k], payload.records);
    var i :| 0 <= i < |log[..k]| && log[..k][i] == own;
    OneSlotRecord(payload.records, run.packet, own, Charge(run, payload.reservationTime));
    LegalPrefix(batch.policy, batch.packet, log, k);
    SortedIsSelection(batch.policy, batch.packet, log[..k], payload.records);
  }

  lemma {:induction false} DecodedHasOwnRecord(policy: Policy, run: Request, payload: OuterReservation, final: Evidence)
    requires ReservationDecodes(policy, run, payload, final)
    ensures OwnRecord(ExecutionOf(policy, run, payload))
  {
    var own := Charge(run, payload.reservationTime);
    SlotContents(payload.records, run.packet, run.role, run.attempt);
    assert own in [own];
    assert own in Slot(payload.records, run.packet, run.role, run.attempt);
  }

  /** Assembles the produced history once both successes are located in it. */
  lemma {:induction false} LocatedIsProduced(
    batch: Batch, reviewer: OuterReservation, adversary: OuterReservation, frozen: Evidence,
    log: seq<Record>, kR: nat, kA: nat)
    requires PreparedBatch(batch)
    requires FrozenDecodes(batch.policy, batch.packet, IdentityDigest(batch.identity), frozen)
    requires ReservationDecodes(batch.policy, batch.reviewer, reviewer, frozen)
    requires ReservationDecodes(batch.policy, batch.adversary, adversary, frozen)
    requires LegalLog(batch.policy, batch.packet, log) && multiset(log) == multiset(frozen.records)
    requires SucceededAt(log, kR, ExecutionOf(batch.policy, batch.reviewer, reviewer))
    requires SucceededAt(log, kA, ExecutionOf(batch.policy, batch.adversary, adversary))
    requires |log| == if kR < kA then kA else kR
    requires SortedRows(frozen.records)
    ensures Produced(batch, reviewer, adversary, frozen, log, kR, kA)
  {
    SucceededIsPayload(batch, frozen, log, kR, batch.reviewer, reviewer);
    SucceededIsPayload(batch, frozen, log, kA, batch.adversary, adversary);
    SortedIsSelection(batch.policy, batch.packet, log, frozen.records);
  }

  /** Soundness: whatever finalization accepts, some legal history produced. */
  lemma {:induction false} FinalizedIsProduced(
    batch: Batch, reviewer: OuterReservation, adversary: OuterReservation, frozen: Evidence)
    returns (log: seq<Record>, kR: nat, kA: nat)
    requires PreparedBatch(batch) && Finalizes(batch, reviewer, adversary, frozen)
    ensures Produced(batch, reviewer, adversary, frozen, log, kR, kA)
  {
    var r := ExecutionOf(batch.policy, batch.reviewer, reviewer);
    var a := ExecutionOf(batch.policy, batch.adversary, adversary);
    DecodedHasOwnRecord(batch.policy, batch.reviewer, reviewer, frozen);
    DecodedHasOwnRecord(batch.policy, batch.adversary, adversary, frozen);
    if a.cumulativeTokens > r.cumulativeTokens {
      log, kR := RealizableEarlyLate(r, a, frozen);
      kA := |log|;
    } else {
      log, kA := RealizableEarlyLate(a, r, frozen);
      kR := |log|;
    }
    LocatedIsProduced(batch, reviewer, adversary, frozen, log, kR, kA);
  }

  /**
   Finalization accepts two reservation payloads and a frozen ledger exactly when they are what some
   legal history of the packet produces in which each role stopped at its success.
   */
  lemma {:induction false} FinalizesIffProduced(
    batch: Batch, reviewer: OuterReservation, adversary: OuterReservation, frozen: Evidence)
    requires PreparedBatch(batch)
    ensures Finalizes(batch, reviewer, adversary, frozen)
       <==> exists log, kR, kA :: Produced(batch, reviewer, adversary, frozen, log, kR, kA)
  {
    if Finalizes(batch, reviewer, adversary, frozen) {
      var log, kR, kA := FinalizedIsProduced(batch, reviewer, adversary, frozen);
    }
    if exists log, kR, kA :: Produced(batch, reviewer, adversary, frozen, log, kR, kA) {
      var log, kR, kA :| Produced(batch, reviewer, adversary, frozen, log, kR, kA);
      ProducedFinalizes(batch, reviewer, adversary, frozen, log, kR, kA);
    }
  }
}
