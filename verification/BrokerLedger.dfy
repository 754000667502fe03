/**
 The packet-wide reservation table of the review broker, its two writers and its evidence builder.

 Every broker attempt is charged in one SQLite table before it is launched.  A `BEGIN IMMEDIATE`
 block is one atomic step here.  SHA-256 is a free constructor (`Digest`), so it is injective by
 construction.
 */
module BrokerLedger {
  import opened Wrappers

  const CONTEXT_WINDOW_TOKENS := 272_000
  const ABSOLUTE_PACKET_COST_MICROUSD := 7_940_000

  /** Constructor order is the SQL text order of the two admitted role names. */
  datatype Role = Adversary | Reviewer | Unknown(name: string)

  datatype Record = Record(
    packet: string, role: Role, attempt: int, tokens: int, cost: int, time: int)

  datatype Policy = Policy(tokenLimit: int, costLimit: int, approvedPricing: bool)

  datatype Identity = Identity(path: string, device: int, inode: int)

  datatype Digest =
    | RecordsDigest(packet: string, records: seq<Record>)
    | RecordDigest(record: Record)
    | IdentityDigest(identity: Identity)
    | LedgerDigest(id: Digest, policy: Policy, measured: int, tokens: int, cost: int, content: Digest)
    | Opaque(text: string)

  datatype Evidence = Evidence(
    identity: Identity, identitySha: Digest, packet: string, policy: Policy,
    records: seq<Record>, recordsSha: Digest, tokens: int, cost: int,
    measured: int, evidenceSha: Digest)

  predicate KnownRole(role: Role) {
    role.Adversary? || role.Reviewer?
  }

  // ---------------------------------------------------------------- queries

  /** `WHERE packet = ? AND role = ? AND attempt = ?`, in insertion order. */
  function Slot(rows: seq<Record>, packet: string, role: Role, attempt: int): seq<Record> {
    if rows == [] then []
    else
      var last := rows[|rows| - 1];
      Slot(rows[..|rows| - 1], packet, role, attempt)
      + if last.packet == packet && last.role == role && last.attempt == attempt then [last] else []
  }

  /** `WHERE packet = ? AND role = ? ORDER BY attempt`; the table holds attempts 1 and 2 only. */
  function Attempts(rows: seq<Record>, packet: string, role: Role): seq<Record> {
    Slot(rows, packet, role, 1) + Slot(rows, packet, role, 2)
  }

  /** `WHERE packet = ? ORDER BY role, attempt`. */
  function Select(rows: seq<Record>, packet: string): seq<Record> {
    Attempts(rows, packet, Adversary) + Attempts(rows, packet, Reviewer)
  }

  function Tokens(rows: seq<Record>): int {
    if rows == [] then 0 else Tokens(rows[..|rows| - 1]) + rows[|rows| - 1].tokens
  }

  function Cost(rows: seq<Record>): int {
    if rows == [] then 0 else Cost(rows[..|rows| - 1]) + rows[|rows| - 1].cost
  }

  /** `WHERE packet = ?`, in insertion order. */
  function OfPacket(rows: seq<Record>, packet: string): seq<Record> {
    if rows == [] then []
    else
      var last := rows[|rows| - 1];
      OfPacket(rows[..|rows| - 1], packet) + if last.packet == packet then [last] else []
  }

  /** The records of one role, in list order. */
  function OfRole(rows: seq<Record>, role: Role): seq<Record> {
    if rows == [] then []
    else
      var last := rows[|rows| - 1];
      OfRole(rows[..|rows| - 1], role) + if last.role == role then [last] else []
  }

  /** Attempt numbers are exactly 1, 2, ... */
  predicate Contiguous(rows: seq<Record>) {
    forall i :: 0 <= i < |rows| ==> rows[i].attempt == i + 1
  }

  /** The CHECK constraints of the table. */
  predicate CheckOk(row: Record) {
    KnownRole(row.role) && 1 <= row.attempt <= 2 && row.tokens > 0 && row.cost > 0 && row.time > 0
  }

  predicate SameKey(a: Record, b: Record) {
    a.packet == b.packet && a.role == b.role && a.attempt == b.attempt
  }

  /** What SQLite itself guarantees of a stored table: CHECK constraints and the primary key. */
  predicate SchemaOk(rows: seq<Record>) {
    && (forall i :: 0 <= i < |rows| ==> CheckOk(rows[i]))
    && (forall i, j :: 0 <= i < j < |rows| ==> !SameKey(rows[i], rows[j]))
  }

  // ---------------------------------------------------------------- the evidence builder

  predicate RecordOk(packet: string, row: Record) {
    && row.packet == packet
    && KnownRole(row.role)
    && 1 <= row.attempt <= 2
    && 1 <= row.tokens <= CONTEXT_WINDOW_TOKENS
    && 1 <= row.cost <= ABSOLUTE_PACKET_COST_MICROUSD
    && row.time > 0
  }

  predicate BuildOk(policy: Policy, packet: string, records: seq<Record>) {
    && (forall i :: 0 <= i < |records| ==> RecordOk(packet, records[i]))
    && Contiguous(OfRole(records, Reviewer))
    && Contiguous(OfRole(records, Adversary))
    && Tokens(records) <= policy.tokenLimit
    && Cost(records) <= policy.costLimit
    && policy.approvedPricing
  }

  function EvidenceOf(
    identity: Identity, policy: Policy, packet: string, records: seq<Record>, measured: int): Evidence
  {
    var content := RecordsDigest(packet, records);
    Evidence(identity, IdentityDigest(identity), packet, policy, records, content,
             Tokens(records), Cost(records), measured,
             LedgerDigest(IdentityDigest(identity), policy, measured, Tokens(records), Cost(records), content))
  }

  function AttemptNumbers(rows: seq<Record>): (numbers: seq<int>)
    ensures |numbers| == |rows| && forall i :: 0 <= i < |rows| ==> numbers[i] == rows[i].attempt
  {
    seq(|rows|, i requires 0 <= i < |rows| => rows[i].attempt)
  }

  /** One pass over the rows: per-row checks, per-role attempt lists and totals. */
  method AccumulateRows(packet: string, rows: seq<Record>)
    returns (valid: bool, reviewer: seq<int>, adversary: seq<int>, tokens: int, cost: int)
    ensures valid <==> forall i :: 0 <= i < |rows| ==> RecordOk(packet, rows[i])
    ensures valid ==> reviewer == AttemptNumbers(OfRole(rows, Reviewer))
    ensures valid ==> adversary == AttemptNumbers(OfRole(rows, Adversary))
    ensures valid ==> tokens == Tokens(rows) && cost == Cost(rows)
  {
    reviewer, adversary, tokens, cost := [], [], 0, 0;
    for i := 0 to |rows|
      invariant forall k :: 0 <= k < i ==> RecordOk(packet, rows[k])
      invariant reviewer == AttemptNumbers(OfRole(rows[..i], Reviewer))
      invariant adversary == AttemptNumbers(OfRole(rows[..i], Adversary))
      invariant tokens == Tokens(rows[..i]) && cost == Cost(rows[..i])
    {
      var row := rows[i];
      assert rows[..i + 1][..i] == rows[..i];
      if !RecordOk(packet, row) {
        return false, [], [], 0, 0;
      }
      if row.role == Reviewer {
        reviewer := reviewer + [row.attempt];
      } else {
        adversary := adversary + [row.attempt];
      }
      tokens, cost := tokens + row.tokens, cost + row.cost;
    }
    assert rows[..|rows|] == rows;
    valid := true;
  }

  /** Rebuilds the evidence of one packet from its rows, or refuses them. */
  method BuildLedgerEvidence(
    identity: Identity, policy: Policy, packet: string, rows: seq<Record>, measured: int)
    returns (evidence: Option<Evidence>)
    ensures evidence.Some? <==> BuildOk(policy, packet, rows) && measured > 0
    ensures evidence.Some? ==> evidence.value == EvidenceOf(identity, policy, packet, rows, measured)
  {
    var valid, reviewer, adversary, tokens, cost := AccumulateRows(packet, rows);
    if !valid || !IsRange(reviewer) || !IsRange(adversary)
      || tokens > policy.tokenLimit || cost > policy.costLimit || !policy.approvedPricing
      || measured <= 0
    {
      RangeIsContiguous(OfRole(rows, Reviewer));
      RangeIsContiguous(OfRole(rows, Adversary));
      return None;
    }
    RangeIsContiguous(OfRole(rows, Reviewer));
    RangeIsContiguous(OfRole(rows, Adversary));
    return Some(EvidenceOf(identity, policy, packet, rows, measured));
  }

  lemma {:induction false} RangeIsContiguous(rows: seq<Record>)
    ensures IsRange(AttemptNumbers(rows)) <==> Contiguous(rows)
  {
    if IsRange(AttemptNumbers(rows)) {
      forall i | 0 <= i < |rows| ensures rows[i].attempt == i + 1 {
        assert AttemptNumbers(rows)[i] == i + 1;
      }
    }
  }

  /** `values == list(range(1, len(values) + 1))` */
  predicate IsRange(values: seq<int>) {
    forall i :: 0 <= i < |values| ==> values[i] == i + 1
  }

  // ---------------------------------------------------------------- reservation

  datatype Request = Request(packet: string, role: Role, attempt: int, tokens: int, cost: int)

  function Charge(request: Request, now: int): Record {
    Record(request.packet, request.role, request.attempt, request.tokens, request.cost, now)
  }

  /** The next attempt of its role, at most the second, after a gapless history of that role. */
  predicate NextAttempt(rows: seq<Record>, request: Request) {
    && Contiguous(Attempts(rows, request.packet, request.role))
    && request.attempt == |Attempts(rows, request.packet, request.role)| + 1
    && request.attempt <= 2
  }

  predicate TokensFit(policy: Policy, rows: seq<Record>, request: Request) {
    Tokens(OfPacket(rows, request.packet)) + request.tokens <= policy.tokenLimit
  }

  predicate CostFits(policy: Policy, rows: seq<Record>, request: Request) {
    Cost(OfPacket(rows, request.packet)) + request.cost <= policy.costLimit
  }

  /** The reserve rule shared by both writers. */
  predicate Admits(policy: Policy, rows: seq<Record>, request: Request, now: int) {
    && NextAttempt(rows, request)
    && TokensFit(policy, rows, request)
    && CostFits(policy, rows, request)
    && CheckOk(Charge(request, now))
  }

  /** The coordinator-side writer also rebuilds the evidence before it commits. */
  predicate AdmitsWithEvidence(policy: Policy, rows: seq<Record>, request: Request, now: int) {
    && Admits(policy, rows, request, now)
    && BuildOk(policy, request.packet, Select(rows + [Charge(request, now)], request.packet))
  }

  /** What happens around the transaction. */
  datatype Environment = Healthy | IdentityMismatch | StorageError | IdentityLostAfterCommit

  datatype Rejection = AttemptReservation | TokenReservation | CostReservation | ValidationFailed

  datatype Outcome = Reserved(evidence: Evidence, reservation: Digest) | Rejected(reason: Rejection)

  datatype OuterReservation = OuterReservation(
    identity: Identity, cumulativeTokens: int, cumulativeCost: int, measured: int,
    records: seq<Record>, reservationTime: int)

  predicate Commits(environment: Environment) {
    environment.Healthy? || environment.IdentityLostAfterCommit?
  }

  class ReservationTable {
    const identity: Identity
    var rows: seq<Record>

    constructor (identity: Identity)
      ensures rows == [] && this.identity == identity
    {
      this.identity := identity;
      rows := [];
    }

    /** The coordinator-side writer. */
    method ReserveAttempt(
      policy: Policy, request: Request, now: int, measured: int, environment: Environment)
      returns (outcome: Outcome)
      requires SchemaOk(rows) && KnownRole(request.role) && now > 0 && measured > 0
      modifies this
      ensures SchemaOk(rows)
      ensures rows == if Commits(environment) && AdmitsWithEvidence(policy, old(rows), request, now)
                      then old(rows) + [Charge(request, now)] else old(rows)
      ensures outcome.Reserved? <==>
              environment.Healthy? && AdmitsWithEvidence(policy, old(rows), request, now)
      ensures outcome.Reserved? ==>
                && outcome.evidence == EvidenceOf(identity, policy, request.packet,
                                                  Select(rows, request.packet), measured)
                && outcome.reservation == RecordDigest(Charge(request, now))
      ensures Commits(environment) ==>
                && (outcome == Rejected(AttemptReservation) <==> !NextAttempt(old(rows), request))
                && (outcome == Rejected(TokenReservation) <==>
                    NextAttempt(old(rows), request) && !TokensFit(policy, old(rows), request))
                && (outcome == Rejected(CostReservation) <==>
                    && NextAttempt(old(rows), request) && TokensFit(policy, old(rows), request)
                    && !CostFits(policy, old(rows), request))
    {
      if environment.IdentityMismatch? || environment.StorageError? {
        return Rejected(ValidationFailed);
      }
      var attempts := AttemptNumbers(Attempts(rows, request.packet, request.role));
      if !IsRange(attempts) {
        return Rejected(AttemptReservation);
      }
      var expectedAttempt := |attempts| + 1;
      if expectedAttempt > 2 || request.attempt != expectedAttempt {
        return Rejected(AttemptReservation);
      }
      var cumulative := Tokens(OfPacket(rows, request.packet)) + request.tokens;
      if cumulative > policy.tokenLimit {
        return Rejected(TokenReservation);
      }
      var cumulativeCost := Cost(OfPacket(rows, request.packet)) + request.cost;
      if cumulativeCost > policy.costLimit {
        return Rejected(CostReservation);
      }
      var charge := Charge(request, now);
      if !CheckOk(charge) {
        return Rejected(ValidationFailed);  // the INSERT violates a CHECK constraint
      }
      FreshKey(rows, request, now);
      var evidence := BuildLedgerEvidence(
        identity, policy, request.packet, Select(rows + [charge], request.packet), measured);
      if evidence.None? {
        return Rejected(ValidationFailed);
      }
      rows := rows + [charge];
      if environment.IdentityLostAfterCommit? {
        return Rejected(ValidationFailed);
      }
      return Reserved(evidence.value, RecordDigest(charge));
    }

    /** The root-owned outer writer. */
    method Reserve(
      policy: Policy, request: Request, now: int, measured: int, environment: Environment)
      returns (outcome: Option<OuterReservation>)
      requires SchemaOk(rows) && KnownRole(request.role)
      modifies this
      ensures SchemaOk(rows)
      ensures rows == if Commits(environment) && Admits(policy, old(rows), request, now)
                      then old(rows) + [Charge(request, now)] else old(rows)
      ensures outcome.Some? <==> environment.Healthy? && Admits(policy, old(rows), request, now)
      ensures outcome.Some? ==>
                outcome.value == OuterReservation(
                  identity,
                  Tokens(OfPacket(old(rows), request.packet)) + request.tokens,
                  Cost(OfPacket(old(rows), request.packet)) + request.cost,
                  measured, Select(rows, request.packet), now)
    {
      if environment.IdentityMismatch? || environment.StorageError? {
        return None;
      }
      var attempts := AttemptNumbers(Attempts(rows, request.packet, request.role));
      if !IsRange(attempts) || request.attempt != |attempts| + 1 {
        return None;
      }
      var cumulative := Tokens(OfPacket(rows, request.packet)) + request.tokens;
      var cumulativeCost := Cost(OfPacket(rows, request.packet)) + request.cost;
      if cumulative > policy.tokenLimit || cumulativeCost > policy.costLimit {
        return None;
      }
      var charge := Charge(request, now);
      if !CheckOk(charge) {
        return None;  // the INSERT violates a CHECK constraint
      }
      FreshKey(rows, request, now);
      rows := rows + [charge];
      var records := Select(rows, request.packet);
      if environment.IdentityLostAfterCommit? {
        return None;
      }
      return Some(OuterReservation(identity, cumulative, cumulativeCost, measured, records, now));
    }

    /** Freezes the final ledger of one packet. */
    method MeasureFrozen(policy: Policy, packet: string, measured: int, environment: Environment)
      returns (frozen: Option<Evidence>)
      requires SchemaOk(rows) && policy.approvedPricing && measured > 0
      ensures frozen.Some? <==>
              environment.Healthy? && Select(rows, packet) != []
              && BuildOk(policy, packet, Select(rows, packet))
      ensures frozen.Some? ==>
                frozen.value == EvidenceOf(identity, policy, packet, Select(rows, packet), measured)
    {
      if !environment.Healthy? {
        return None;
      }
      var records := Select(rows, packet);
      var evidence := BuildLedgerEvidence(identity, policy, packet, records, measured);
      if records == [] {
        return None;
      }
      return evidence;
    }
  }

  // ---------------------------------------------------------------- facts about the queries

  lemma {:induction false} SlotAppend(rows: seq<Record>, row: Record, packet: string, role: Role, attempt: int)
    ensures Slot(rows + [row], packet, role, attempt)
         == if row.packet == packet && row.role == role && row.attempt == attempt
            then Slot(rows, packet, role, attempt) + [row] else Slot(rows, packet, role, attempt)
  {
    assert (rows + [row])[..|rows|] == rows;
  }

  lemma {:induction false} TotalsAppend(rows: seq<Record>, row: Record)
    ensures Tokens(rows + [row]) == Tokens(rows) + row.tokens
    ensures Cost(rows + [row]) == Cost(rows) + row.cost
  {
    assert (rows + [row])[..|rows|] == rows;
  }

  lemma {:induction false} PacketAppend(rows: seq<Record>, row: Record, packet: string)
    ensures OfPacket(rows + [row], packet)
         == if row.packet == packet then OfPacket(rows, packet) + [row] else OfPacket(rows, packet)
  {
    assert (rows + [row])[..|rows|] == rows;
  }

  lemma {:induction false} RoleAppend(rows: seq<Record>, row: Record, role: Role)
    ensures OfRole(rows + [row], role)
         == if row.role == role then OfRole(rows, role) + [row] else OfRole(rows, role)
  {
    assert (rows + [row])[..|rows|] == rows;
  }

  lemma {:induction false} SlotContents(rows: seq<Record>, packet: string, role: Role, attempt: int)
    ensures forall row :: row in Slot(rows, packet, role, attempt) <==>
              row in rows && row.packet == packet && row.role == role && row.attempt == attempt
  {
    if rows != [] {
      var front, last := rows[..|rows| - 1], rows[|rows| - 1];
      SlotContents(front, packet, role, attempt);
      assert rows == front + [last];
    }
  }

  /** The next attempt of a role never collides with the primary key. */
  lemma {:induction false} FreshKey(rows: seq<Record>, request: Request, now: int)
    requires SchemaOk(rows) && CheckOk(Charge(request, now))
    requires request.attempt == |Attempts(rows, request.packet, request.role)| + 1
    requires Contiguous(Attempts(rows, request.packet, request.role))
    ensures SchemaOk(rows + [Charge(request, now)])
  {
    var charge := Charge(request, now);
    var held := Attempts(rows, request.packet, request.role);
    SlotContents(rows, request.packet, request.role, 1);
    SlotContents(rows, request.packet, request.role, 2);
    assert forall k :: 0 <= k < |held| ==> held[k].attempt <= |held|;
    forall i | 0 <= i < |rows| && rows[i].packet == charge.packet && rows[i].role == charge.role
      ensures rows[i].attempt < charge.attempt
    {
      assert rows[i] in held;
    }
  }
}
