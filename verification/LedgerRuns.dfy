/**
 Whole runs of the reservation table: any number of coordinator-side and outer reservations of any
 packets, in any interleaving, each possibly rejected or failing before or after its commit.
 */
module LedgerRuns {
  import opened BrokerLedger

  datatype Writer = Coordinator | Outer

  datatype Event = Event(writer: Writer, request: Request, now: int, environment: Environment)

  /** The bounds every caller establishes before it may reserve. */
  predicate ValidatedRequest(request: Request) {
    && KnownRole(request.role)
    && 1 <= request.attempt <= 2
    && 12_000 <= request.tokens <= CONTEXT_WINDOW_TOKENS
    && request.cost > 0
  }

  predicate ValidatedPolicy(policy: Policy) {
    12_000 <= policy.tokenLimit && 1 <= policy.costLimit <= ABSOLUTE_PACKET_COST_MICROUSD && policy.approvedPricing
  }

  predicate Admitted(policy: Policy, rows: seq<Record>, event: Event) {
    match event.writer
    case Coordinator => AdmitsWithEvidence(policy, rows, event.request, event.now)
    case Outer => Admits(policy, rows, event.request, event.now)
  }

  /** What both writers' contracts say of the table after one call. */
  function Step(policy: Policy, rows: seq<Record>, event: Event): seq<Record> {
    if Commits(event.environment) && Admitted(policy, rows, event)
    then rows + [Charge(event.request, event.now)] else rows
  }

  function Run(policy: Policy, events: seq<Event>): seq<Record> {
    if events == [] then [] else Step(policy, Run(policy, events[..|events| - 1]), events[|events| - 1])
  }

  ghost predicate PacketInvariant(policy: Policy, rows: seq<Record>, packet: string) {
    && Contiguous(Attempts(rows, packet, Reviewer))
    && Contiguous(Attempts(rows, packet, Adversary))
    && |Attempts(rows, packet, Reviewer)| <= 2
    && |Attempts(rows, packet, Adversary)| <= 2
    && Tokens(OfPacket(rows, packet)) <= policy.tokenLimit
    && Cost(OfPacket(rows, packet)) <= policy.costLimit
  }

  ghost predicate Invariant(policy: Policy, rows: seq<Record>) {
    && SchemaOk(rows)
    && (forall i :: 0 <= i < |rows| ==> RecordOk(rows[i].packet, rows[i]))
    && (forall packet :: PacketInvariant(policy, rows, packet))
  }

  // ---------------------------------------------------------------- sums and roles of a selection

  lemma {:induction false} TotalsConcat(a: seq<Record>, b: seq<Record>)
    ensures Tokens(a + b) == Tokens(a) + Tokens(b)
    ensures Cost(a + b) == Cost(a) + Cost(b)
  {
    if b == [] {
      assert a + b == a;
    } else {
      var front := b[..|b| - 1];
      TotalsConcat(a, front);
      assert (a + b)[..|a + b| - 1] == a + front;
    }
  }

  lemma {:induction false} RoleConcat(a: seq<Record>, b: seq<Record>, role: Role)
    ensures OfRole(a + b, role) == OfRole(a, role) + OfRole(b, role)
  {
    if b == [] {
      assert a + b == a;
    } else {
      var front := b[..|b| - 1];
      RoleConcat(a, front, role);
      assert (a + b)[..|a + b| - 1] == a + front;
    }
  }

  lemma {:induction false} NoneOf(rows: seq<Record>, role: Role)
    requires forall i :: 0 <= i < |rows| ==> rows[i].role != role
    ensures OfRole(rows, role) == []
  {
    if rows != [] {
      NoneOf(rows[..|rows| - 1], role);
    }
  }

  lemma {:induction false} AllOf(rows: seq<Record>, role: Role)
    requires forall i :: 0 <= i < |rows| ==> rows[i].role == role
    ensures OfRole(rows, role) == rows
  {
    if rows != [] {
      AllOf(rows[..|rows| - 1], role);
    }
  }

  lemma {:induction false} OneRole(rows: seq<Record>, held: Role, role: Role)
    requires forall i :: 0 <= i < |rows| ==> rows[i].role == held
    ensures OfRole(rows, role) == if held == role then rows else []
  {
    if held == role {
      AllOf(rows, role);
    } else {
      NoneOf(rows, role);
    }
  }

  lemma {:induction false} AttemptsContents(rows: seq<Record>, packet: string, role: Role)
    ensures forall row :: row in Attempts(rows, packet, role) ==>
              row in rows && row.packet == packet && row.role == role
    ensures forall i :: 0 <= i < |Attempts(rows, packet, role)| ==>
              Attempts(rows, packet, role)[i] in rows && Attempts(rows, packet, role)[i].role == role
  {
    SlotContents(rows, packet, role, 1);
    SlotContents(rows, packet, role, 2);
  }

  lemma {:induction false} SelectByRole(rows: seq<Record>, packet: string)
    ensures OfRole(Select(rows, packet), Adversary) == Attempts(rows, packet, Adversary)
    ensures OfRole(Select(rows, packet), Reviewer) == Attempts(rows, packet, Reviewer)
  {
    AttemptsContents(rows, packet, Adversary);
    AttemptsContents(rows, packet, Reviewer);
    var a, r := Attempts(rows, packet, Adversary), Attempts(rows, packet, Reviewer);
    RoleConcat(a, r, Adversary);
    RoleConcat(a, r, Reviewer);
    OneRole(a, Adversary, Adversary);
    OneRole(a, Adversary, Reviewer);
    OneRole(r, Reviewer, Adversary);
    OneRole(r, Reviewer, Reviewer);
  }

  function SlotTokens(rows: seq<Record>, packet: string): int {
    Tokens(Slot(rows, packet, Adversary, 1)) + Tokens(Slot(rows, packet, Adversary, 2))
    + Tokens(Slot(rows, packet, Reviewer, 1)) + Tokens(Slot(rows, packet, Reviewer, 2))
  }

  function SlotCost(rows: seq<Record>, packet: string): int {
    Cost(Slot(rows, packet, Adversary, 1)) + Cost(Slot(rows, packet, Adversary, 2))
    + Cost(Slot(rows, packet, Reviewer, 1)) + Cost(Slot(rows, packet, Reviewer, 2))
  }

  /** `SUM(...) WHERE packet` and the sum over `ORDER BY role, attempt` are the same number. */
  lemma {:induction false} SelectTotals(rows: seq<Record>, packet: string)
    requires forall i :: 0 <= i < |rows| ==> CheckOk(rows[i])
    ensures Tokens(Select(rows, packet)) == Tokens(OfPacket(rows, packet))
    ensures Cost(Select(rows, packet)) == Cost(OfPacket(rows, packet))
  {
    TotalsConcat(Attempts(rows, packet, Adversary), Attempts(rows, packet, Reviewer));
    TotalsConcat(Slot(rows, packet, Adversary, 1), Slot(rows, packet, Adversary, 2));
    TotalsConcat(Slot(rows, packet, Reviewer, 1), Slot(rows, packet, Reviewer, 2));
    SlotTotals(rows, packet);
  }

  lemma {:induction false} SlotTotals(rows: seq<Record>, packet: string)
    requires forall i :: 0 <= i < |rows| ==> CheckOk(rows[i])
    ensures SlotTokens(rows, packet) == Tokens(OfPacket(rows, packet))
    ensures SlotCost(rows, packet) == Cost(OfPacket(rows, packet))
  {
    if rows != [] {
      var front, last := rows[..|rows| - 1], rows[|rows| - 1];
      assert rows == front + [last] && CheckOk(last);
      SlotTotals(front, packet);
      SlotTotalsAppend(front, last, packet);
    }
  }

  /** Exactly one of the four slots of its packet receives a well-formed row. */
  lemma {:induction false} SlotTotalsAppend(rows: seq<Record>, row: Record, packet: string)
    requires CheckOk(row)
    ensures SlotTokens(rows + [row], packet) - SlotTokens(rows, packet)
         == Tokens(OfPacket(rows + [row], packet)) - Tokens(OfPacket(rows, packet))
    ensures SlotCost(rows + [row], packet) - SlotCost(rows, packet)
         == Cost(OfPacket(rows + [row], packet)) - Cost(OfPacket(rows, packet))
  {
    var after := rows + [row];
    PacketTotalAppend(rows, row, packet);
    SlotTotalAppend(rows, row, packet, Adversary, 1);
    SlotTotalAppend(rows, row, packet, Adversary, 2);
    SlotTotalAppend(rows, row, packet, Reviewer, 1);
    SlotTotalAppend(rows, row, packet, Reviewer, 2);
  }

  lemma {:induction false} PacketTotalAppend(rows: seq<Record>, row: Record, packet: string)
    ensures Tokens(OfPacket(rows + [row], packet))
         == Tokens(OfPacket(rows, packet)) + if row.packet == packet then row.tokens else 0
    ensures Cost(OfPacket(rows + [row], packet))
         == Cost(OfPacket(rows, packet)) + if row.packet == packet then row.cost else 0
  {
    PacketAppend(rows, row, packet);
    TotalsAppend(OfPacket(rows, packet), row);
  }

  lemma {:induction false} SlotTotalAppend(rows: seq<Record>, row: Record, packet: string, role: Role, attempt: int)
    ensures Tokens(Slot(rows + [row], packet, role, attempt)) == Tokens(Slot(rows, packet, role, attempt))
          + if row.packet == packet && row.role == role && row.attempt == attempt then row.tokens else 0
    ensures Cost(Slot(rows + [row], packet, role, attempt)) == Cost(Slot(rows, packet, role, attempt))
          + if row.packet == packet && row.role == role && row.attempt == attempt then row.cost else 0
  {
    SlotAppend(rows, row, packet, role, attempt);
    TotalsAppend(Slot(rows, packet, role, attempt), row);
  }

  // ---------------------------------------------------------------- the invariant

  /** Appending the next attempt to either of the two attempt slots appends it to the whole. */
  lemma {:induction false} NextAttemptIsLast(first: seq<Record>, second: seq<Record>, charge: Record)
    requires forall i :: 0 <= i < |second| ==> second[i].attempt == 2
    requires Contiguous(first + second) && charge.attempt == |first + second| + 1 <= 2
    ensures Contiguous(first + second + [charge])
    ensures charge.attempt == 1 ==> (first + [charge]) + second == first + second + [charge]
    ensures charge.attempt == 2 ==> first + (second + [charge]) == first + second + [charge]
  {
  }

  lemma {:induction false} AttemptsAppend(rows: seq<Record>, request: Request, now: int, packet: string, role: Role)
    requires NextAttempt(rows, request) && request.attempt >= 1
    ensures Attempts(rows + [Charge(request, now)], packet, role)
         == if packet == request.packet && role == request.role
            then Attempts(rows, packet, role) + [Charge(request, now)] else Attempts(rows, packet, role)
    ensures Contiguous(Attempts(rows, packet, role)) ==>
              Contiguous(Attempts(rows + [Charge(request, now)], packet, role))
  {
    var charge := Charge(request, now);
    SlotAppend(rows, charge, packet, role, 1);
    SlotAppend(rows, charge, packet, role, 2);
    if packet == request.packet && role == request.role {
      var first, second := Slot(rows, packet, role, 1), Slot(rows, packet, role, 2);
      SlotContents(rows, packet, role, 2);
      assert forall i :: 0 <= i < |second| ==> second[i] in second;
      NextAttemptIsLast(first, second, charge);
    }
  }

  lemma {:induction false} TokensNonNegative(rows: seq<Record>)
    requires forall i :: 0 <= i < |rows| ==> rows[i].tokens > 0 && rows[i].cost > 0
    ensures Tokens(rows) >= |rows| && Cost(rows) >= |rows|
  {
    if rows != [] {
      TokensNonNegative(rows[..|rows| - 1]);
    }
  }

  lemma {:induction false} PacketContents(rows: seq<Record>, packet: string)
    ensures forall i :: 0 <= i < |OfPacket(rows, packet)| ==>
              OfPacket(rows, packet)[i] in rows && OfPacket(rows, packet)[i].packet == packet
    ensures forall row :: row in rows && row.packet == packet ==> row in OfPacket(rows, packet)
  {
    if rows != [] {
      var front := rows[..|rows| - 1];
      PacketContents(front, packet);
      assert rows == front + [rows[|rows| - 1]];
    }
  }

  /** An admitted charge is within the absolute bounds the evidence builder re-checks. */
  lemma {:induction false} AdmittedRecordOk(policy: Policy, rows: seq<Record>, request: Request, now: int)
    requires Invariant(policy, rows) && ValidatedPolicy(policy) && ValidatedRequest(request)
    requires Admits(policy, rows, request, now)
    ensures RecordOk(request.packet, Charge(request, now))
  {
    PacketContents(rows, request.packet);
    TokensNonNegative(OfPacket(rows, request.packet));
  }

  lemma {:induction false} StepKeepsPacket(
    policy: Policy, rows: seq<Record>, request: Request, now: int, packet: string)
    requires Invariant(policy, rows) && Admits(policy, rows, request, now)
    ensures PacketInvariant(policy, rows + [Charge(request, now)], packet)
  {
    assert PacketInvariant(policy, rows, packet);
    AttemptsAppend(rows, request, now, packet, Reviewer);
    AttemptsAppend(rows, request, now, packet, Adversary);
    PacketAppend(rows, Charge(request, now), packet);
    TotalsAppend(OfPacket(rows, packet), Charge(request, now));
  }

  lemma {:induction false} StepKeepsInvariant(policy: Policy, rows: seq<Record>, request: Request, now: int)
    requires Invariant(policy, rows) && ValidatedPolicy(policy) && ValidatedRequest(request)
    requires Admits(policy, rows, request, now)
    ensures Invariant(policy, rows + [Charge(request, now)])
  {
    FreshKey(rows, request, now);
    AdmittedRecordOk(policy, rows, request, now);
    forall packet ensures PacketInvariant(policy, rows + [Charge(request, now)], packet) {
      StepKeepsPacket(policy, rows, request, now, packet);
    }
  }

  /**
   Every interleaving keeps the ledger: contiguous attempts, at most two per role, and token and
   cost sums within the caps, for every packet at once.
   */
  lemma {:induction false} RunKeepsInvariant(policy: Policy, events: seq<Event>)
    requires ValidatedPolicy(policy)
    requires forall i :: 0 <= i < |events| ==> ValidatedRequest(events[i].request)
    ensures Invariant(policy, Run(policy, events))
  {
    if events != [] {
      var front, last := events[..|events| - 1], events[|events| - 1];
      RunKeepsInvariant(policy, front);
      var rows := Run(policy, front);
      if Commits(last.environment) && Admitted(policy, rows, last) {
        StepKeepsInvariant(policy, rows, last.request, last.now);
      }
    }
  }

  /** No committed charge is ever lost or altered by what happens later. */
  lemma {:induction false} NothingLost(policy: Policy, events: seq<Event>, k: nat)
    requires k <= |events|
    ensures Run(policy, events[..k]) <= Run(policy, events)
  {
    if k < |events| {
      var front := events[..|events| - 1];
      NothingLost(policy, front, k);
      assert front[..k] == events[..k];
    } else {
      assert events[..k] == events;
    }
  }

  /** Under the invariant the evidence builder accepts every packet and reports the table's sums. */
  lemma {:induction false} InvariantBuilds(policy: Policy, rows: seq<Record>, packet: string)
    requires Invariant(policy, rows) && ValidatedPolicy(policy)
    ensures BuildOk(policy, packet, Select(rows, packet))
    ensures Tokens(Select(rows, packet)) == Tokens(OfPacket(rows, packet))
    ensures Cost(Select(rows, packet)) == Cost(OfPacket(rows, packet))
  {
    assert PacketInvariant(policy, rows, packet);
    SelectTotals(rows, packet);
    SelectByRole(rows, packet);
    AttemptsContents(rows, packet, Adversary);
    AttemptsContents(rows, packet, Reviewer);
  }

  /**
   The two reservation implementations accept the same requests on every reachable ledger.
   `ReserveAttempt` and `Reserve` then append the same record.
   */
  lemma {:induction false} WritersAgree(policy: Policy, rows: seq<Record>, request: Request, now: int)
    requires Invariant(policy, rows) && ValidatedPolicy(policy) && ValidatedRequest(request)
    ensures AdmitsWithEvidence(policy, rows, request, now) <==> Admits(policy, rows, request, now)
  {
    if Admits(policy, rows, request, now) {
      StepKeepsInvariant(policy, rows, request, now);
      var after := rows + [Charge(request, now)];
      InvariantBuilds(policy, after, request.packet);
      PacketAppend(rows, Charge(request, now), request.packet);
    }
  }

  function OtherRole(role: Role): Role {
    if role.Adversary? then Reviewer else Adversary
  }

  /** What the coordinator's rebuild looks at and the shared rule does not. */
  predicate RestBuilds(rows: seq<Record>, request: Request) {
    && Contiguous(Attempts(rows, request.packet, OtherRole(request.role)))
    && forall i :: 0 <= i < |rows| && rows[i].packet == request.packet ==> rows[i].tokens <= CONTEXT_WINDOW_TOKENS
  }

  lemma {:induction false} SelectContents(rows: seq<Record>, packet: string)
    requires forall i :: 0 <= i < |rows| ==> CheckOk(rows[i])
    ensures forall row :: row in Select(rows, packet) <==> row in rows && row.packet == packet
  {
    SlotContents(rows, packet, Adversary, 1);
    SlotContents(rows, packet, Adversary, 2);
    SlotContents(rows, packet, Reviewer, 1);
    SlotContents(rows, packet, Reviewer, 2);
    forall row | row in rows && row.packet == packet ensures row in Select(rows, packet) {
      assert CheckOk(row);
    }
  }

  /** Each row of a packet whose costs fit is within the absolute bounds but for its tokens. */
  lemma {:induction false} FittingRecordOk(policy: Policy, rows: seq<Record>, packet: string, row: Record)
    requires forall i :: 0 <= i < |rows| ==> CheckOk(rows[i])
    requires ValidatedPolicy(policy) && Cost(OfPacket(rows, packet)) <= policy.costLimit
    requires row in rows && row.packet == packet
    ensures RecordOk(packet, row) <==> row.tokens <= CONTEXT_WINDOW_TOKENS
  {
    PacketContents(rows, packet);
    TokensNonNegative(OfPacket(rows, packet));
    MemberCost(OfPacket(rows, packet), row);
  }

  lemma {:induction false} MemberCost(rows: seq<Record>, row: Record)
    requires row in rows && forall i :: 0 <= i < |rows| ==> rows[i].tokens > 0 && rows[i].cost > 0
    ensures row.cost <= Cost(rows)
  {
    var front := rows[..|rows| - 1];
    assert rows == front + [rows[|rows| - 1]];
    TokensNonNegative(front);
    if row in front {
      MemberCost(front, row);
    }
  }

  /**
   On any stored table, an admitted request is refused by the coordinator's writer exactly when the
   other role's attempts have a gap or a row of the packet is beyond the context window.
   */
  lemma {:induction false} WritersDifferExactly(policy: Policy, rows: seq<Record>, request: Request, now: int)
    requires SchemaOk(rows) && ValidatedPolicy(policy) && ValidatedRequest(request)
    requires Admits(policy, rows, request, now)
    ensures AdmitsWithEvidence(policy, rows, request, now) <==> RestBuilds(rows, request)
  {
    var charge, packet := Charge(request, now), request.packet;
    var after := rows + [charge];
    AttemptsAppend(rows, request, now, packet, Reviewer);
    AttemptsAppend(rows, request, now, packet, Adversary);
    SelectByRole(after, packet);
    SelectTotals(after, packet);
    PacketTotalAppend(rows, charge, packet);
    RecordsOkExactly(policy, rows, charge);
    BuildsByParts(policy, packet, Select(after, packet), request.role);
  }

  lemma {:induction false} BuildsByParts(policy: Policy, packet: string, records: seq<Record>, role: Role)
    requires Tokens(records) <= policy.tokenLimit && Cost(records) <= policy.costLimit && policy.approvedPricing
    requires KnownRole(role) && Contiguous(OfRole(records, role))
    ensures BuildOk(policy, packet, records)
       <==> (forall row :: row in records ==> RecordOk(packet, row)) && Contiguous(OfRole(records, OtherRole(role)))
  {
  }

  lemma {:induction false} RecordsOkExactly(policy: Policy, rows: seq<Record>, charge: Record)
    requires forall i :: 0 <= i < |rows| ==> CheckOk(rows[i])
    requires CheckOk(charge) && charge.tokens <= CONTEXT_WINDOW_TOKENS && ValidatedPolicy(policy)
    requires Cost(OfPacket(rows + [charge], charge.packet)) <= policy.costLimit
    ensures (forall row :: row in Select(rows + [charge], charge.packet) ==> RecordOk(charge.packet, row))
       <==> forall i :: 0 <= i < |rows| && rows[i].packet == charge.packet ==> rows[i].tokens <= CONTEXT_WINDOW_TOKENS
  {
    var after := rows + [charge];
    SelectContents(after, charge.packet);
    forall row | row in after && row.packet == charge.packet
      ensures RecordOk(charge.packet, row) <==> row.tokens <= CONTEXT_WINDOW_TOKENS
    {
      FittingRecordOk(policy, after, charge.packet, row);
    }
    forall i | 0 <= i < |rows| ensures rows[i] in after {
      assert after[i] == rows[i];
    }
  }

  /** Off the invariant they differ: the outer writer never looks at the other role's attempts. */
  lemma {:induction false} WritersDifferOnAGap() returns (policy: Policy, rows: seq<Record>, request: Request)
    ensures SchemaOk(rows) && ValidatedPolicy(policy) && ValidatedRequest(request)
    ensures Admits(policy, rows, request, 1)
    ensures !AdmitsWithEvidence(policy, rows, request, 1)
  {
    var gap := Record("p", Adversary, 2, 12_000, 1, 1);
    request := Request("p", Reviewer, 1, 12_000, 1);
    policy := Policy(1_088_000, ABSOLUTE_PACKET_COST_MICROUSD, true);
    rows := [] + [gap];
    PacketTotalAppend([], gap, "p");
    SlotAppend([], gap, "p", Reviewer, 1);
    SlotAppend([], gap, "p", Reviewer, 2);
    assert Attempts(rows, "p", Reviewer) == [];
    GapRemains(gap, Charge(request, 1));
  }

  lemma {:induction false} GapRemains(gap: Record, charge: Record)
    requires gap.role == Adversary && gap.attempt == 2 && charge.role == Reviewer
    ensures !Contiguous(OfRole(Select([] + [gap] + [charge], gap.packet), Adversary))
  {
    SlotAppend([], gap, gap.packet, Adversary, 1);
    SlotAppend([], gap, gap.packet, Adversary, 2);
    SlotAppend([] + [gap], charge, gap.packet, Adversary, 1);
    SlotAppend([] + [gap], charge, gap.packet, Adversary, 2);
    SelectByRole([] + [gap] + [charge], gap.packet);
    assert OfRole(Select([] + [gap] + [charge], gap.packet), Adversary)[0] == gap;
  }

  // ---------------------------------------------------------------- one packet's own history

  /** A history of one packet in which every record obeyed the reserve rule when it was added. */
  ghost predicate LegalLog(policy: Policy, packet: string, log: seq<Record>) {
    forall k :: 0 <= k < |log| ==> LegalAt(policy, packet, log, k)
  }

  function RequestOf(row: Record): Request {
    Request(row.packet, row.role, row.attempt, row.tokens, row.cost)
  }

  predicate LegalAt(policy: Policy, packet: string, log: seq<Record>, k: nat)
    requires k < |log|
  {
    && log[k].packet == packet
    && RecordOk(packet, log[k])
    && Admits(policy, log[..k], RequestOf(log[k]), log[k].time)
  }

  lemma {:induction false} ProjectionQueries(rows: seq<Record>, packet: string)
    ensures OfPacket(OfPacket(rows, packet), packet) == OfPacket(rows, packet)
    ensures forall role, attempt :: Slot(OfPacket(rows, packet), packet, role, attempt)
                                 == Slot(rows, packet, role, attempt)
  {
    if rows != [] {
      var front, last := rows[..|rows| - 1], rows[|rows| - 1];
      ProjectionQueries(front, packet);
      assert rows == front + [last];
      PacketAppend(front, last, packet);
      if last.packet == packet {
        PacketAppend(OfPacket(front, packet), last, packet);
        forall role, attempt
          ensures Slot(OfPacket(rows, packet), packet, role, attempt) == Slot(rows, packet, role, attempt)
        {
          SlotAppend(OfPacket(front, packet), last, packet, role, attempt);
          SlotAppend(front, last, packet, role, attempt);
        }
      }
    }
  }

  /** The reserve rule looks at its own packet only. */
  lemma {:induction false} AdmitsOnProjection(policy: Policy, rows: seq<Record>, request: Request, now: int)
    ensures Admits(policy, OfPacket(rows, request.packet), request, now)
       <==> Admits(policy, rows, request, now)
  {
    ProjectionQueries(rows, request.packet);
    assert Attempts(OfPacket(rows, request.packet), request.packet, request.role)
        == Attempts(rows, request.packet, request.role);
  }

  lemma {:induction false} LegalAppend(policy: Policy, packet: string, log: seq<Record>, row: Record)
    requires LegalLog(policy, packet, log) && RecordOk(packet, row)
    requires Admits(policy, log, RequestOf(row), row.time)
    ensures LegalLog(policy, packet, log + [row])
  {
    var longer := log + [row];
    assert longer[..|log|] == log;
    forall k | 0 <= k < |log| ensures LegalAt(policy, packet, longer, k) {
      assert LegalAt(policy, packet, log, k);
      assert longer[..k] == log[..k];
    }
  }

  /** Seen from one packet, any run with any other packets interleaved is a legal log. */
  lemma {:induction false} RunProjectsToLegalLog(policy: Policy, events: seq<Event>, packet: string)
    requires ValidatedPolicy(policy)
    requires forall i :: 0 <= i < |events| ==> ValidatedRequest(events[i].request)
    ensures LegalLog(policy, packet, OfPacket(Run(policy, events), packet))
  {
    if events != [] {
      var front, last := events[..|events| - 1], events[|events| - 1];
      RunProjectsToLegalLog(policy, front, packet);
      var rows := Run(policy, front);
      if Commits(last.environment) && Admitted(policy, rows, last) {
        RunKeepsInvariant(policy, front);
        var charge := Charge(last.request, last.now);
        PacketAppend(rows, charge, packet);
        if charge.packet == packet {
          AdmitsOnProjection(policy, rows, last.request, last.now);
          AdmittedRecordOk(policy, rows, last.request, last.now);
          LegalAppend(policy, packet, OfPacket(rows, packet), charge);
        }
      }
    }
  }
}
