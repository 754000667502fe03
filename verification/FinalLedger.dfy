/**
 The final-ledger validator and the outer-evidence decoder, against the reservation histories of
 `LedgerRuns`.

 The validator sees two executions, each with a ledger snapshot, and one final ledger.  It never
 sees the table.  The results say which histories it accepts.
 */
module FinalLedger {
  import opened BrokerLedger
  import opened LedgerRuns

  datatype Execution = Execution(
    role: Role, attempt: int, packet: string, identitySha: Digest, policy: Policy,
    tokens: int, cost: int, cumulativeTokens: int, cumulativeCost: int,
    reservationSha: Digest, ledger: Evidence)

  // ---------------------------------------------------------------- the validators

  predicate IdentityOk(identity: Identity) {
    identity.path != "" && identity.device >= 0 && identity.inode > 0
  }

  /** Re-derives every field of a ledger snapshot from its records. */
  predicate ValidatedRecords(evidence: Evidence, packet: string, policy: Policy) {
    && evidence.packet == packet
    && evidence.policy == policy
    && IdentityOk(evidence.identity)
    && evidence.recordsSha == RecordsDigest(evidence.packet, evidence.records)
    && 0 <= evidence.tokens <= policy.tokenLimit
    && 0 <= evidence.cost <= policy.costLimit
    && evidence.measured > 0
    && evidence.identitySha == IdentityDigest(evidence.identity)
    && BuildOk(policy, packet, evidence.records)
    && evidence.tokens == Tokens(evidence.records)
    && evidence.cost == Cost(evidence.records)
    && evidence.evidenceSha == LedgerDigest(
         evidence.identitySha, policy, evidence.measured,
         Tokens(evidence.records), Cost(evidence.records), RecordsDigest(packet, evidence.records))
  }

  /** The last reservation of a role, which its execution must be. */
  predicate AccountsFor(execution: Execution, last: Record, final: Evidence) {
    && last.tokens == execution.tokens
    && execution.reservationSha == RecordDigest(last)
    && execution.packet == final.packet
    && execution.identitySha == final.identitySha
    && execution.policy == final.policy
    && execution.cost == last.cost
    && execution.cumulativeTokens == execution.ledger.tokens
    && execution.cumulativeCost == execution.ledger.cost
  }

  /** `not any(record not in final_records for record in records)` */
  predicate Within(records: seq<Record>, final: seq<Record>) {
    forall i :: 0 <= i < |records| ==> records[i] in final
  }

  predicate ExecutionAccepted(execution: Execution, final: Evidence) {
    var mine := OfRole(final.records, execution.role);
    && mine != []
    && |mine| == execution.attempt && Contiguous(mine)
    && AccountsFor(execution, mine[|mine| - 1], final)
    && ValidatedRecords(execution.ledger, final.packet, final.policy)
    && Within(execution.ledger.records, final.records)
  }

  function Latest(a: Execution, b: Execution): Execution {
    if b.cumulativeTokens > a.cumulativeTokens then b else a
  }

  /** One execution per review role, in either order. */
  predicate BothRoles(a: Role, b: Role) {
    (a.Reviewer? && b.Adversary?) || (a.Adversary? && b.Reviewer?)
  }

  predicate FinalAccepts(executions: seq<Execution>, final: Evidence) {
    && |executions| == 2
    && BothRoles(executions[0].role, executions[1].role)
    && ValidatedRecords(final, final.packet, final.policy)
    && ExecutionAccepted(executions[0], final)
    && ExecutionAccepted(executions[1], final)
    && executions[0].cumulativeTokens != executions[1].cumulativeTokens
    && Latest(executions[0], executions[1]).cumulativeTokens == final.tokens
    && Latest(executions[0], executions[1]).ledger.records == final.records
    && Latest(executions[0], executions[1]).ledger.recordsSha == final.recordsSha
  }

  // ---------------------------------------------------------------- builder = legal history

  lemma {:induction false} FromRole(rows: seq<Record>, role: Role, i: nat)
    requires i < |OfRole(rows, role)|
    ensures OfRole(rows, role)[i] in rows && OfRole(rows, role)[i].role == role
  {
    var front, last := rows[..|rows| - 1], rows[|rows| - 1];
    assert rows == front + [last];
    if i < |OfRole(front, role)| {
      FromRole(front, role, i);
    }
  }

  lemma {:induction false} InRole(rows: seq<Record>, role: Role, k: nat)
    requires k < |rows| && rows[k].role == role
    ensures rows[k] in OfRole(rows, role)
  {
    if k < |rows| - 1 {
      InRole(rows[..|rows| - 1], role, k);
    }
  }

  lemma {:induction false} AllFromRole(rows: seq<Record>, role: Role)
    ensures forall i :: 0 <= i < |OfRole(rows, role)| ==> OfRole(rows, role)[i].role == role
  {
    forall i | 0 <= i < |OfRole(rows, role)| ensures OfRole(rows, role)[i].role == role {
      FromRole(rows, role, i);
    }
  }

  predicate OnePacket(packet: string, rows: seq<Record>) {
    forall i :: 0 <= i < |rows| ==> rows[i].packet == packet && 1 <= rows[i].attempt <= 2
  }

  /** When attempts ascend in list order, `ORDER BY attempt` changes nothing. */
  lemma {:induction false} AttemptsInListOrder(packet: string, rows: seq<Record>, role: Role)
    requires OnePacket(packet, rows) && Contiguous(OfRole(rows, role))
    ensures Attempts(rows, packet, role) == OfRole(rows, role)
  {
    if rows != [] {
      var front, last := rows[..|rows| - 1], rows[|rows| - 1];
      assert rows == front + [last];
      RoleAppend(front, last, role);
      assert forall i :: 0 <= i < |OfRole(front, role)| ==> OfRole(front, role)[i] == OfRole(rows, role)[i];
      AttemptsInListOrder(packet, front, role);
      SlotAppend(front, last, packet, role, 1);
      SlotAppend(front, last, packet, role, 2);
      if last.role == role {
        var first, second := Slot(front, packet, role, 1), Slot(front, packet, role, 2);
        SlotContents(front, packet, role, 2);
        assert forall i :: 0 <= i < |second| ==> second[i] in second;
        assert last == OfRole(rows, role)[|OfRole(front, role)|];
        NextAttemptIsLast(first, second, last);
      }
    }
  }

  lemma {:induction false} WholePacket(packet: string, rows: seq<Record>)
    requires OnePacket(packet, rows)
    ensures OfPacket(rows, packet) == rows
  {
    if rows != [] {
      var front, last := rows[..|rows| - 1], rows[|rows| - 1];
      WholePacket(packet, front);
      PacketAppend(front, last, packet);
      assert front + [last] == rows;
    }
  }

  /** Dropping the last record of an accepted list leaves an accepted list. */
  lemma {:induction false} BuildPrefix(policy: Policy, packet: string, rows: seq<Record>)
    requires rows != [] && BuildOk(policy, packet, rows)
    ensures BuildOk(policy, packet, rows[..|rows| - 1])
  {
    var front, last := rows[..|rows| - 1], rows[|rows| - 1];
    assert rows == front + [last];
    RoleAppend(front, last, Reviewer);
    RoleAppend(front, last, Adversary);
    assert forall i :: 0 <= i < |OfRole(front, Reviewer)| ==> OfRole(front, Reviewer)[i] == OfRole(rows, Reviewer)[i];
    assert forall i ::
      0 <= i < |OfRole(front, Adversary)| ==> OfRole(front, Adversary)[i] == OfRole(rows, Adversary)[i];
  }

  /** In an accepted list the last record obeys the reserve rule on everything before it. */
  lemma {:induction false} BuildAdmitsLast(policy: Policy, packet: string, rows: seq<Record>)
    requires rows != [] && BuildOk(policy, packet, rows)
    ensures LegalAt(policy, packet, rows, |rows| - 1)
  {
    var front, last := rows[..|rows| - 1], rows[|rows| - 1];
    assert rows == front + [last];
    BuildPrefix(policy, packet, rows);
    RoleAppend(front, last, last.role);
    AttemptsInListOrder(packet, front, last.role);
    assert OfRole(rows, last.role)[|OfRole(front, last.role)|] == last;
    WholePacket(packet, front);
  }

  lemma {:induction false} AppendedRoleContiguous(
    policy: Policy, packet: string, front: seq<Record>, last: Record, role: Role)
    requires BuildOk(policy, packet, front) && KnownRole(role)
    requires last.packet == packet && NextAttempt(front, RequestOf(last))
    ensures Contiguous(OfRole(front + [last], role))
  {
    RoleAppend(front, last, role);
    if last.role == role {
      AttemptsInListOrder(packet, front, role);
    }
  }

  /** Adding a record by the reserve rule keeps the list accepted. */
  lemma {:induction false} AdmitKeepsBuild(policy: Policy, packet: string, front: seq<Record>, last: Record)
    requires BuildOk(policy, packet, front) && RecordOk(packet, last)
    requires Admits(policy, front, RequestOf(last), last.time)
    ensures BuildOk(policy, packet, front + [last])
  {
    AppendedRoleContiguous(policy, packet, front, last, Reviewer);
    AppendedRoleContiguous(policy, packet, front, last, Adversary);
    TotalsAppend(front, last);
    WholePacket(packet, front);
  }

  /**
   The evidence builder accepts a list of records exactly when that list, read left to right, is a
   history in which every record obeyed the reserve rule.
   */
  lemma {:induction false} BuildIffLegalHistory(policy: Policy, packet: string, log: seq<Record>)
    requires policy.approvedPricing && policy.tokenLimit >= 0 && policy.costLimit >= 0
    ensures BuildOk(policy, packet, log) <==> LegalLog(policy, packet, log)
  {
    if log != [] {
      var front := log[..|log| - 1];
      BuildIffLegalHistory(policy, packet, front);
      assert forall k {:trigger log[..k]} :: 0 <= k < |front| ==> front[..k] == log[..k];
      if BuildOk(policy, packet, log) {
        BuildPrefix(policy, packet, log);
        BuildAdmitsLast(policy, packet, log);
        forall k | 0 <= k < |log| ensures LegalAt(policy, packet, log, k) {
          assert k < |front| ==> LegalAt(policy, packet, front, k);
        }
      }
      if LegalLog(policy, packet, log) {
        forall k | 0 <= k < |front| ensures LegalAt(policy, packet, front, k) {
          assert LegalAt(policy, packet, log, k);
        }
        assert LegalAt(policy, packet, log, |log| - 1);
        AdmitKeepsBuild(policy, packet, front, log[|front|]);
        assert log == front + [log[|front|]];
      }
    }
  }

  // ---------------------------------------------------------------- realizability

  /** The record of this very execution is in its own snapshot, as the decoder demands. */
  ghost predicate OwnRecord(execution: Execution) {
    exists record :: && record in execution.ledger.records
                     && record.role == execution.role && record.attempt == execution.attempt
                     && RecordDigest(record) == execution.reservationSha
  }

  /** After `k` reservations `execution` succeeded: its snapshot is that ledger, and its role stopped. */
  ghost predicate SucceededAt(log: seq<Record>, k: nat, execution: Execution) {
    && 0 < k <= |log|
    && multiset(log[..k]) == multiset(execution.ledger.records)
    && log[k - 1].role == execution.role
    && log[k - 1].attempt == execution.attempt
    && (forall i :: k <= i < |log| ==> log[i].role != execution.role)
  }

  /** A legal history of the final records in which both snapshots occur, the later one last. */
  ghost predicate Realizes(log: seq<Record>, k0: nat, k1: nat, executions: seq<Execution>, final: Evidence) {
    && |executions| == 2
    && LegalLog(final.policy, final.packet, log)
    && multiset(log) == multiset(final.records)
    && SucceededAt(log, k0, executions[0])
    && SucceededAt(log, k1, executions[1])
    && |log| == if k0 < k1 then k1 else k0
  }

  lemma {:induction false} RolesPartition(rows: seq<Record>)
    requires forall i :: 0 <= i < |rows| ==> KnownRole(rows[i].role)
    ensures multiset(rows) == multiset(OfRole(rows, Adversary)) + multiset(OfRole(rows, Reviewer))
    ensures Tokens(rows) == Tokens(OfRole(rows, Adversary)) + Tokens(OfRole(rows, Reviewer))
    ensures Cost(rows) == Cost(OfRole(rows, Adversary)) + Cost(OfRole(rows, Reviewer))
  {
    if rows != [] {
      var front, last := rows[..|rows| - 1], rows[|rows| - 1];
      assert rows == front + [last];
      RolesPartition(front);
      TotalsAppend(front, last);
      RoleTotalAppend(front, last, Adversary);
      RoleTotalAppend(front, last, Reviewer);
    }
  }

  lemma {:induction false} RoleTotalAppend(rows: seq<Record>, row: Record, role: Role)
    ensures multiset(OfRole(rows + [row], role))
         == multiset(OfRole(rows, role)) + if row.role == role then multiset{row} else multiset{}
    ensures Tokens(OfRole(rows + [row], role))
         == Tokens(OfRole(rows, role)) + if row.role == role then row.tokens else 0
    ensures Cost(OfRole(rows + [row], role))
         == Cost(OfRole(rows, role)) + if row.role == role then row.cost else 0
  {
    RoleAppend(rows, row, role);
    TotalsAppend(OfRole(rows, role), row);
  }

  /** A contiguous list is a prefix of any contiguous list that contains its records. */
  lemma {:induction false} PrefixByAttempt(a: seq<Record>, b: seq<Record>)
    requires Contiguous(a) && Contiguous(b) && Within(a, b)
    ensures a <= b
  {
    forall i | 0 <= i < |a| ensures i < |b| && b[i] == a[i] {
      assert a[i] in b;
      var j :| 0 <= j < |b| && b[j] == a[i];
      assert b[j].attempt == j + 1 && a[i].attempt == i + 1;
    }
    assert |a| > 0 ==> a[|a| - 1].attempt == |a|;
  }

  lemma {:induction false} RolesWithin(snapshot: seq<Record>, final: seq<Record>, role: Role)
    requires Within(snapshot, final)
    ensures Within(OfRole(snapshot, role), OfRole(final, role))
  {
    forall i | 0 <= i < |OfRole(snapshot, role)|
      ensures OfRole(snapshot, role)[i] in OfRole(final, role)
    {
      FromRole(snapshot, role, i);
      var row := OfRole(snapshot, role)[i];
      var j :| 0 <= j < |snapshot| && snapshot[j] == row;
      var k :| 0 <= k < |final| && final[k] == row;
      InRole(final, role, k);
    }
  }

  /** A snapshot drawn from the final records holds a prefix of each role's attempts. */
  lemma {:induction false} SnapshotPrefix(snapshot: seq<Record>, final: seq<Record>, role: Role)
    requires Contiguous(OfRole(snapshot, role)) && Contiguous(OfRole(final, role))
    requires Within(snapshot, final)
    ensures OfRole(snapshot, role) <= OfRole(final, role)
  {
    RolesWithin(snapshot, final, role);
    PrefixByAttempt(OfRole(snapshot, role), OfRole(final, role));
  }

  /** Holding attempt `n` of a role means holding all of 1..n. */
  lemma {:induction false} HoldsUpTo(snapshot: seq<Record>, role: Role, held: seq<Record>, all: seq<Record>, k: nat)
    requires held == OfRole(snapshot, role) && held <= all && Contiguous(all)
    requires k < |snapshot| && snapshot[k].role == role
    requires snapshot[k].attempt == |all|
    ensures held == all
  {
    InRole(snapshot, role, k);
    var i :| 0 <= i < |held| && held[i] == snapshot[k];
    assert all[i].attempt == i + 1;
  }

  /** Replay `inner` after the first `j` records of `outer`, then the rest of `outer`. */
  function Interleave(inner: seq<Record>, outer: seq<Record>, j: nat): seq<Record>
    requires j <= |outer|
  {
    outer[..j] + inner + outer[j..]
  }

  lemma {:induction false} ConcatOfRole(x: seq<Record>, y: seq<Record>, z: seq<Record>, role: Role)
    ensures OfRole(x + y + z, role) == OfRole(x, role) + OfRole(y, role) + OfRole(z, role)
  {
    RoleConcat(x + y, z, role);
    RoleConcat(x, y, role);
  }

  /** The records of one role in three parts, two of which are known. */
  lemma {:induction false} PartsOfRole(
    x: seq<Record>, y: seq<Record>, z: seq<Record>, role: Role,
    px: seq<Record>, py: seq<Record>, pz: seq<Record>)
    requires px == OfRole(x, role) && py == OfRole(y, role) && pz == OfRole(z, role)
    ensures OfRole(x + y + z, role) == px + py + pz
  {
    ConcatOfRole(x, y, z, role);
  }

  lemma {:induction false} InterleaveInner(inner: seq<Record>, outer: seq<Record>, j: nat, early: Role, late: Role)
    requires early != late && j <= |outer|
    requires forall i :: 0 <= i < |inner| ==> inner[i].role == early
    requires forall i :: 0 <= i < |outer| ==> outer[i].role == late
    ensures OfRole(Interleave(inner, outer, j), early) == inner
  {
    OneRole(inner, early, early);
    OneRole(outer[..j], late, early);
    OneRole(outer[j..], late, early);
    PartsOfRole(outer[..j], inner, outer[j..], early, [], inner, []);
    assert [] + inner + [] == inner;
  }

  lemma {:induction false} InterleaveOuter(inner: seq<Record>, outer: seq<Record>, j: nat, early: Role, late: Role)
    requires early != late && j <= |outer|
    requires forall i :: 0 <= i < |inner| ==> inner[i].role == early
    requires forall i :: 0 <= i < |outer| ==> outer[i].role == late
    ensures OfRole(Interleave(inner, outer, j), late) == outer
  {
    OneRole(inner, early, late);
    OneRole(outer[..j], late, late);
    OneRole(outer[j..], late, late);
    PartsOfRole(outer[..j], inner, outer[j..], late, outer[..j], [], outer[j..]);
    assert outer[..j] + [] + outer[j..] == outer;
  }

  lemma {:induction false} InterleaveMembers(final: seq<Record>, inner: seq<Record>, outer: seq<Record>, j: nat)
    requires j <= |outer| && Within(inner, final) && Within(outer, final)
    ensures Within(Interleave(inner, outer, j), final)
  {
    var log := Interleave(inner, outer, j);
    forall i | 0 <= i < |log| ensures log[i] in final {
      assert log[i] == if i < j then outer[i]
                       else if i < j + |inner| then inner[i - j] else outer[i - |inner|];
    }
  }

  /** Two lists with the same role lists have the same records and totals. */
  lemma {:induction false} SameRolesSameRecords(a: seq<Record>, b: seq<Record>)
    requires forall i :: 0 <= i < |a| ==> KnownRole(a[i].role)
    requires forall i :: 0 <= i < |b| ==> KnownRole(b[i].role)
    requires OfRole(a, Adversary) == OfRole(b, Adversary) && OfRole(a, Reviewer) == OfRole(b, Reviewer)
    ensures multiset(a) == multiset(b) && Tokens(a) == Tokens(b) && Cost(a) == Cost(b)
  {
    RolesPartition(a);
    RolesPartition(b);
  }

  lemma {:induction false} AllFromRoleWithin(rows: seq<Record>, role: Role)
    ensures Within(OfRole(rows, role), rows)
  {
    forall i | 0 <= i < |OfRole(rows, role)| ensures OfRole(rows, role)[i] in rows {
      FromRole(rows, role, i);
    }
  }

  lemma {:induction false} InterleaveIsLegal(
    policy: Policy, packet: string, final: seq<Record>, early: Role, late: Role,
    b: seq<Record>, c: seq<Record>, j: nat)
    requires BuildOk(policy, packet, final) && policy.tokenLimit >= 0 && policy.costLimit >= 0
    requires BothRoles(early, late) && b == OfRole(final, early) && c == OfRole(final, late)
    requires j <= |c|
    ensures LegalLog(policy, packet, Interleave(b, c, j))
    ensures multiset(Interleave(b, c, j)) == multiset(final)
  {
    AllFromRole(final, early);
    AllFromRole(final, late);
    AllFromRoleWithin(final, early);
    AllFromRoleWithin(final, late);
    InterleaveMembers(final, b, c, j);
    InterleaveInner(b, c, j, early, late);
    InterleaveOuter(b, c, j, early, late);
    SameRolesSameRecords(Interleave(b, c, j), final);
    BuildIffLegalHistory(policy, packet, Interleave(b, c, j));
  }

  lemma {:induction false} InterleaveIndices(b: seq<Record>, c: seq<Record>, j: nat)
    requires b != [] && j < |c|
    ensures var log, k := Interleave(b, c, j), j + |b|;
            && 0 < k < |log| && log[..k] == c[..j] + b
            && log[k - 1] == b[|b| - 1] && log[|log| - 1] == c[|c| - 1]
            && (forall i :: k <= i < |log| ==> log[i] in c)
  {
    var log, k := Interleave(b, c, j), j + |b|;
    assert forall i :: k <= i < |log| ==> log[i] == c[i - |b|];
  }

  /**
   A snapshot that completes one role and misses some of the other is an intermediate ledger of a
   legal history of the final records, whose last step completes the other role.
   */
  lemma {:induction false} EarlierSnapshotOccurs(
    policy: Policy, packet: string, final: seq<Record>, snapshot: seq<Record>,
    early: Role, late: Role, b: seq<Record>, c: seq<Record>)
    returns (log: seq<Record>, k: nat)
    requires BuildOk(policy, packet, final) && policy.tokenLimit >= 0 && policy.costLimit >= 0
    requires BothRoles(early, late)
    requires b == OfRole(final, early) == OfRole(snapshot, early) && c == OfRole(final, late)
    requires forall i :: 0 <= i < |snapshot| ==> KnownRole(snapshot[i].role)
    requires b != [] && OfRole(snapshot, late) < c
    ensures LegalLog(policy, packet, log) && multiset(log) == multiset(final)
    ensures 0 < k < |log| && multiset(log[..k]) == multiset(snapshot)
    ensures log[k - 1] == b[|b| - 1] && log[|log| - 1] == c[|c| - 1]
    ensures forall i :: k <= i < |log| ==> log[i] in c
  {
    var part := OfRole(snapshot, late);
    SnapshotRoles(snapshot, early, late, b, part);
    InterleaveIsLegal(policy, packet, final, early, late, b, c, |part|);
    log, k := Interleave(b, c, |part|), |part| + |b|;
    InterleaveOccurs(b, c, part, log, k);
  }

  lemma {:induction false} InterleaveOccurs(
    b: seq<Record>, c: seq<Record>, part: seq<Record>, log: seq<Record>, k: nat)
    requires b != [] && part < c
    requires log == Interleave(b, c, |part|) && k == |part| + |b|
    ensures 0 < k < |log| && log[..k] == part + b
    ensures log[k - 1] == b[|b| - 1] && log[|log| - 1] == c[|c| - 1]
    ensures forall i :: k <= i < |log| ==> log[i] in c
  {
    assert c[..|part|] == part;
    InterleaveIndices(b, c, |part|);
  }

  lemma {:induction false} SnapshotRoles(snapshot: seq<Record>, early: Role, late: Role, b: seq<Record>, c: seq<Record>)
    requires BothRoles(early, late) && b == OfRole(snapshot, early) && c == OfRole(snapshot, late)
    requires forall i :: 0 <= i < |snapshot| ==> KnownRole(snapshot[i].role)
    ensures multiset(c + b) == multiset(snapshot)
  {
    RolesPartition(snapshot);
  }

  /** Both snapshots' facts, from acceptance and the earlier execution's own record. */
  lemma {:induction false} EarlierIsProper(
    early: Execution, late: Execution, final: Evidence, b: seq<Record>, c: seq<Record>)
    requires BothRoles(early.role, late.role)
    requires ValidatedRecords(final, final.packet, final.policy)
    requires ExecutionAccepted(early, final) && OwnRecord(early)
    requires early.cumulativeTokens != final.tokens
    requires b == OfRole(final.records, early.role) && c == OfRole(final.records, late.role)
    ensures OfRole(early.ledger.records, early.role) == b
    ensures OfRole(early.ledger.records, late.role) < c
  {
    var snapshot := early.ledger.records;
    SnapshotPrefix(snapshot, final.records, early.role);
    SnapshotPrefix(snapshot, final.records, late.role);
    var own :| 0 <= own < |snapshot| && snapshot[own].role == early.role && snapshot[own].attempt == early.attempt;
    HoldsUpTo(snapshot, early.role, OfRole(snapshot, early.role), b, own);
    if OfRole(snapshot, late.role) == c {
      SameRolesSameRecords(snapshot, final.records);
    }
  }

  /** Acceptance plus the own-record check is realizable, with the earlier execution first. */
  lemma {:induction false} RealizableEarlyLate(early: Execution, late: Execution, final: Evidence)
    returns (log: seq<Record>, k: nat)
    requires BothRoles(early.role, late.role)
    requires ValidatedRecords(final, final.packet, final.policy)
    requires ExecutionAccepted(early, final) && ExecutionAccepted(late, final) && OwnRecord(early)
    requires early.cumulativeTokens != final.tokens && late.ledger.records == final.records
    ensures LegalLog(final.policy, final.packet, log) && multiset(log) == multiset(final.records)
    ensures SucceededAt(log, k, early) && SucceededAt(log, |log|, late)
  {
    var b, c := OfRole(final.records, early.role), OfRole(final.records, late.role);
    EarlierIsProper(early, late, final, b, c);
    log, k := EarlierSnapshotOccurs(
      final.policy, final.packet, final.records, early.ledger.records, early.role, late.role, b, c);
    RealizedPair(early, late, final, b, c, log, k);
  }

  lemma {:induction false} RealizedPair(
    early: Execution, late: Execution, final: Evidence, b: seq<Record>, c: seq<Record>,
    log: seq<Record>, k: nat)
    requires BothRoles(early.role, late.role)
    requires b == OfRole(final.records, early.role) && c == OfRole(final.records, late.role)
    requires |b| == early.attempt > 0 && |c| == late.attempt > 0 && Contiguous(b) && Contiguous(c)
    requires multiset(log) == multiset(final.records) && late.ledger.records == final.records
    requires 0 < k < |log| && multiset(log[..k]) == multiset(early.ledger.records)
    requires log[k - 1] == b[|b| - 1] && log[|log| - 1] == c[|c| - 1]
    requires forall i :: k <= i < |log| ==> log[i] in c
    ensures SucceededAt(log, k, early) && SucceededAt(log, |log|, late)
  {
    AllFromRole(final.records, early.role);
    AllFromRole(final.records, late.role);
    assert b[|b| - 1].attempt == |b| && c[|c| - 1].attempt == |c|;
    assert log[..|log|] == log;
  }

  /** A realized success is in its own snapshot. */
  lemma {:induction false} SucceededHasOwnRecord(log: seq<Record>, k: nat, execution: Execution, final: Evidence)
    requires ExecutionAccepted(execution, final) && SucceededAt(log, k, execution)
    requires multiset(log) == multiset(final.records)
    ensures OwnRecord(execution)
  {
    var own := log[k - 1];
    assert own in log[..k];
    assert own in multiset(log[..k]);
    assert own in execution.ledger.records;
    assert own in multiset(log);
    assert own in final.records;
    var i :| 0 <= i < |final.records| && final.records[i] == own;
    InRole(final.records, execution.role, i);
    var mine := OfRole(final.records, execution.role);
    var j :| 0 <= j < |mine| && mine[j] == own;
    assert mine[j].attempt == j + 1;
  }

  /**
   What the final validator accepts is exactly what some legal sequence of reservations produces,
   provided each execution's own record is in its own snapshot; without that it is not.
   */
  lemma {:induction false} RealizableIffOwnRecord(executions: seq<Execution>, final: Evidence)
    requires FinalAccepts(executions, final)
    ensures OwnRecord(executions[0]) && OwnRecord(executions[1])
       <==> exists log, k0, k1 :: Realizes(log, k0, k1, executions, final)
  {
    var a, b := executions[0], executions[1];
    if OwnRecord(a) && OwnRecord(b) {
      if b.cumulativeTokens > a.cumulativeTokens {
        var log, k := RealizableEarlyLate(a, b, final);
        assert Realizes(log, k, |log|, executions, final);
      } else {
        var log, k := RealizableEarlyLate(b, a, final);
        assert Realizes(log, |log|, k, executions, final);
      }
    }
    if exists log, k0, k1 :: Realizes(log, k0, k1, executions, final) {
      var log, k0, k1 :| Realizes(log, k0, k1, executions, final);
      SucceededHasOwnRecord(log, k0, a, final);
      SucceededHasOwnRecord(log, k1, b, final);
    }
  }
}
