/**
 The judge's own reading of the final ledger, which rebuilds the totals and attempt lists from the raw
 records before it looks at the two successful executions.
 */
module AttestedLedger {
  import opened Wrappers
  import opened BrokerLedger
  import opened LedgerRuns
  import opened FinalLedger
  import opened Finalization

  datatype Context = Context(packet: string, tokenLimit: int)

  predicate RecordFits(row: Record, context: Context, costLimit: int) {
    && KnownRole(row.role) && 1 <= row.attempt <= 2
    && 1 <= row.tokens <= context.tokenLimit && 1 <= row.cost <= costLimit
    && row.time > 0 && row.packet == context.packet
  }

  /** Attempts 1, or 1 and 2. */
  predicate RolePresent(rows: seq<Record>, role: Role) {
    Contiguous(OfRole(rows, role)) && 1 <= |OfRole(rows, role)| <= 2
  }

  /** What is checked of the ledger alone. */
  predicate LedgerAccepted(final: Evidence, context: Context) {
    && final.recordsSha == RecordsDigest(context.packet, final.records)
    && (forall i :: 0 <= i < |final.records| ==> RecordFits(final.records[i], context, final.policy.costLimit))
    && RolePresent(final.records, Reviewer) && RolePresent(final.records, Adversary)
    && Tokens(final.records) == final.tokens <= context.tokenLimit
    && Cost(final.records) == final.cost <= final.policy.costLimit
  }

  /** The one record of an execution's role and attempt reserved what the execution spent. */
  predicate Reserved(final: Evidence, context: Context, execution: Execution) {
    var matches := Slot(final.records, context.packet, execution.role, execution.attempt);
    |matches| == 1 && matches[0].tokens == execution.tokens && matches[0].cost == execution.cost
  }

  predicate ExecutionsReserved(final: Evidence, context: Context, executions: seq<Execution>) {
    && |executions| == 2 && BothRoles(executions[0].role, executions[1].role)
    && Reserved(final, context, executions[0]) && Reserved(final, context, executions[1])
  }

  /** One pass over the raw records: checks, attempt lists and totals. */
  method CollectRecords(rows: seq<Record>, context: Context, costLimit: int)
    returns (valid: bool, reviewer: seq<int>, adversary: seq<int>, tokens: int, cost: int)
    ensures valid <==> forall i :: 0 <= i < |rows| ==> RecordFits(rows[i], context, costLimit)
    ensures valid ==> reviewer == AttemptNumbers(OfRole(rows, Reviewer))
    ensures valid ==> adversary == AttemptNumbers(OfRole(rows, Adversary))
    ensures valid ==> tokens == Tokens(rows) && cost == Cost(rows)
  {
    reviewer, adversary, tokens, cost := [], [], 0, 0;
    for i := 0 to |rows|
      invariant forall k :: 0 <= k < i ==> RecordFits(rows[k], context, costLimit)
      invariant reviewer == AttemptNumbers(OfRole(rows[..i], Reviewer))
      invariant adversary == AttemptNumbers(OfRole(rows[..i], Adversary))
      invariant tokens == Tokens(rows[..i]) && cost == Cost(rows[..i])
    {
      var row := rows[i];
      assert rows[..i + 1][..i] == rows[..i];
      if !RecordFits(row, context, costLimit) {
        return false, [], [], 0, 0;
      }
      if row.role == Reviewer {
        reviewer := reviewer + [row.attempt];
      } else {
        adversary := adversary + [row.attempt];
      }
      tokens, cost := tokens + row.tokens, cost + row.cost;
    }
    assert rows[..|rows|] == rows;
    valid := true;
  }

  method ValidateFinalRecords(final: Evidence, executions: seq<Execution>, context: Context)
    returns (records: Option<seq<Record>>)
    ensures records.Some? <==> LedgerAccepted(final, context) && ExecutionsReserved(final, context, executions)
    ensures records.Some? ==> records.value == final.records
  {
    if final.recordsSha != RecordsDigest(context.packet, final.records) {
      return None;
    }
    var valid, reviewer, adversary, tokens, cost :=
      CollectRecords(final.records, context, final.policy.costLimit);
    RangeIsContiguous(OfRole(final.records, Reviewer));
    RangeIsContiguous(OfRole(final.records, Adversary));
    if !valid || !IsRange(reviewer) || !IsRange(adversary)
      || !(1 <= |reviewer| <= 2) || !(1 <= |adversary| <= 2)
    {
      return None;
    }
    if tokens != final.tokens || tokens > context.tokenLimit
      || cost != final.cost || cost > final.policy.costLimit
    {
      return None;
    }
    if !ExecutionsReserved(final, context, executions) {
      return None;
    }
    return Some(final.records);
  }

  // ---------------------------------------------------------------- agreement with the other readers

  /** No record of a list of positive amounts exceeds the total. */
  lemma {:induction false} PartOfTotal(rows: seq<Record>, i: nat)
    requires i < |rows| && forall k :: 0 <= k < |rows| ==> rows[k].tokens > 0 && rows[k].cost > 0
    ensures rows[i].tokens <= Tokens(rows) && rows[i].cost <= Cost(rows)
  {
    var n := |rows| - 1;
    TokensNonNegative(rows[..n]);
    if i < n {
      PartOfTotal(rows[..n], i);
    }
  }

  lemma {:induction false} TwoAtMost(rows: seq<Record>, role: Role)
    requires Contiguous(OfRole(rows, role))
    requires forall i :: 0 <= i < |rows| ==> rows[i].attempt <= 2
    ensures |OfRole(rows, role)| <= 2
  {
    if OfRole(rows, role) != [] {
      FromRole(rows, role, |OfRole(rows, role)| - 1);
    }
  }

  /** Whatever finalization accepted, with the same packet and cap, the judge's reading accepts too. */
  lemma {:induction false} FinalizedLedgerAccepted(final: Evidence, executions: seq<Execution>, context: Context)
    requires FinalAccepts(executions, final)
    requires context == Context(final.packet, final.policy.tokenLimit)
    ensures LedgerAccepted(final, context) && ExecutionsReserved(final, context, executions)
  {
    forall i | 0 <= i < |final.records|
      ensures RecordFits(final.records[i], context, final.policy.costLimit)
    {
      PartOfTotal(final.records, i);
    }
    TwoAtMost(final.records, Reviewer);
    TwoAtMost(final.records, Adversary);
    AcceptedIsReserved(executions[0], final, context);
    AcceptedIsReserved(executions[1], final, context);
  }

  lemma {:induction false} AcceptedIsReserved(execution: Execution, final: Evidence, context: Context)
    requires ExecutionAccepted(execution, final) && ValidatedRecords(final, final.packet, final.policy)
    requires KnownRole(execution.role) && context.packet == final.packet
    ensures Reserved(final, context, execution)
  {
    var mine := OfRole(final.records, execution.role);
    AttemptsInListOrder(final.packet, final.records, execution.role);
    FromRole(final.records, execution.role, |mine| - 1);
    SlotOfContiguous(final.records, final.packet, mine[|mine| - 1]);
  }

  /** On records within the model window, the ledger half accepts exactly complete legal histories. */
  lemma {:induction false} LedgerAcceptedIffHistory(final: Evidence, context: Context)
    requires final.policy.approvedPricing && context == Context(final.packet, final.policy.tokenLimit)
    requires final.policy.tokenLimit >= 0 && 0 <= final.policy.costLimit <= ABSOLUTE_PACKET_COST_MICROUSD
    requires forall i :: 0 <= i < |final.records| ==> final.records[i].tokens <= CONTEXT_WINDOW_TOKENS
    ensures LedgerAccepted(final, context)
       <==> && LegalLog(final.policy, final.packet, final.records)
            && OfRole(final.records, Reviewer) != [] && OfRole(final.records, Adversary) != []
            && final.tokens == Tokens(final.records) && final.cost == Cost(final.records)
            && final.recordsSha == RecordsDigest(final.packet, final.records)
  {
    BuildIffLegalHistory(final.policy, final.packet, final.records);
    if BuildOk(final.policy, final.packet, final.records) {
      forall i | 0 <= i < |final.records|
        ensures RecordFits(final.records[i], context, final.policy.costLimit)
      {
        PartOfTotal(final.records, i);
      }
      TwoAtMost(final.records, Reviewer);
      TwoAtMost(final.records, Adversary);
    }
  }
}
