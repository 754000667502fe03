/**
 Attestation sets: every signature, binding, role and time is checked before any nonce is consumed,
 and all nonces of a set are consumed together.

 `verifies` says whether an envelope's signature verifies under a trusted key with a matching key id.
 */
module Nonces {
  import opened Wrappers

  /** The role texts; acceptance ids contain no colon, so the constructors are as injective as they are. */
  datatype RoleName =
    | TaskRole | PolicyRole | ReviewerRole | AdversaryRole
    | GateRole(id: string) | RedRole(id: string) | GreenRole(id: string)

  /** What a statement signs of the run beside its role and session, and of the setting it ran in. */
  datatype Signed = Signed(
    taskId: string, taskSha: string, baseSha: string, headSha: string, candidate: Option<string>,
    snapshot: Option<string>, runtimeManifest: string, image: string, runner: string, argv: string, log: string,
    request: string, response: string)

  /** Every signed field but the nonce and the time of issue. */
  datatype Binding = Binding(role: RoleName, session: string, artifact: string, signed: Signed)

  datatype Statement = Statement(binding: Binding, nonce: string, issuedAt: int)

  datatype Envelope = Envelope(keyId: string, statement: Statement, signature: string)

  predicate Distinct(values: seq<string>) {
    forall i, j :: 0 <= i < j < |values| ==> values[i] != values[j]
  }

  function SetOf(values: seq<string>): set<string> {
    set v | v in values
  }

  // ---------------------------------------------------------------- the two ledgers

  class InMemoryNonceLedger {
    var used: set<string>

    constructor ()
      ensures used == {}
    {
      used := {};
    }

    /** Reserves all of them or none. */
    method ReserveMany(nonces: seq<string>) returns (reserved: bool)
      modifies this
      ensures reserved <==> Distinct(nonces) && SetOf(nonces) !! old(used)
      ensures used == if reserved then old(used) + SetOf(nonces) else old(used)
    {
      var unique := AllDistinct(nonces);
      if !unique {
        return false;
      }
      if exists i :: 0 <= i < |nonces| && nonces[i] in used {
        return false;
      }
      used := used + SetOf(nonces);
      return true;
    }
  }

  /** `len(values) == len(set(values))` */
  method AllDistinct(values: seq<string>) returns (distinct: bool)
    ensures distinct <==> Distinct(values)
  {
    var seen: set<string> := {};
    for i := 0 to |values|
      invariant Distinct(values[..i]) && seen == SetOf(values[..i])
    {
      if values[i] in seen {
        assert values[i] in values[..i];
        return false;
      }
      seen := seen + {values[i]};
      assert values[..i + 1] == values[..i] + [values[i]];
    }
    assert values[..|values|] == values;
    return true;
  }

  predicate HexDigit(c: char) {
    '0' <= c <= '9' || 'a' <= c <= 'f'
  }

  predicate WellFormed(nonce: string) {
    32 <= |nonce| <= 128 && forall i :: 0 <= i < |nonce| ==> HexDigit(nonce[i])
  }

  predicate AllWellFormed(nonces: seq<string>) {
    forall i :: 0 <= i < |nonces| ==> WellFormed(nonces[i])
  }

  /** What happens around the transaction; `LostAfterClose` is found only when the file is re-checked. */
  datatype Conditions = Healthy | ConnectFails | TransactionFails | RollbackFails | LostAfterClose

  datatype Reservation = Reserved | Refused | Raised

  /** These nonces would commit. */
  predicate Insertable(used: set<string>, nonces: seq<string>) {
    AllWellFormed(nonces) && Distinct(nonces) && SetOf(nonces) !! used
  }

  predicate Commits(conditions: Conditions, used: set<string>, nonces: seq<string>) {
    (conditions.Healthy? || conditions.RollbackFails? || conditions.LostAfterClose?) && Insertable(used, nonces)
  }

  class SqliteNonceLedger {
    var used: set<string>

    constructor ()
      ensures used == {}
    {
      used := {};
    }

    /** One `BEGIN IMMEDIATE` transaction; the file is validated again after it is closed. */
    method ReserveMany(nonces: seq<string>, conditions: Conditions) returns (result: Reservation)
      modifies this
      ensures used == if Commits(conditions, old(used), nonces) then old(used) + SetOf(nonces) else old(used)
      ensures result == Reserved <==>
                Commits(conditions, old(used), nonces) && !conditions.LostAfterClose?
    {
      if !AllWellFormed(nonces) {
        return Refused;
      }
      var unique := AllDistinct(nonces);
      if !unique {
        return Refused;
      }
      if conditions.ConnectFails? || conditions.TransactionFails? {
        return Raised;
      }
      if exists i :: 0 <= i < |nonces| && nonces[i] in used {
        // the primary key rejects the insert, and the transaction is rolled back
        return if conditions.Healthy? then Refused else Raised;
      }
      used := used + SetOf(nonces);
      return if conditions.LostAfterClose? then Raised else Reserved;
    }
  }

  // ---------------------------------------------------------------- one attestation set

  function Roles(envelopes: seq<Envelope>): set<RoleName> {
    set i | 0 <= i < |envelopes| :: envelopes[i].statement.binding.role
  }

  function NoncesOf(envelopes: seq<Envelope>): (nonces: seq<string>)
    ensures |nonces| == |envelopes|
    ensures forall i :: 0 <= i < |envelopes| ==> nonces[i] == envelopes[i].statement.nonce
  {
    seq(|envelopes|, i requires 0 <= i < |envelopes| => envelopes[i].statement.nonce)
  }

  function StatementsOf(envelopes: seq<Envelope>): (statements: seq<Statement>)
    ensures |statements| == |envelopes|
    ensures forall i :: 0 <= i < |envelopes| ==> statements[i] == envelopes[i].statement
  {
    seq(|envelopes|, i requires 0 <= i < |envelopes| => envelopes[i].statement)
  }

  predicate UniqueRoles(envelopes: seq<Envelope>) {
    forall i, j :: 0 <= i < j < |envelopes| ==>
      envelopes[i].statement.binding.role != envelopes[j].statement.binding.role
  }

  datatype Terms = Terms(
    expectations: map<RoleName, Binding>, verifies: Envelope -> bool, now: int, maxAge: int, maxSkew: int)

  predicate EnvelopeSound(terms: Terms, e: Envelope) {
    && terms.verifies(e)
    && e.statement.binding.role in terms.expectations
    && e.statement.binding == terms.expectations[e.statement.binding.role]
    && e.statement.issuedAt <= terms.now + terms.maxSkew
    && terms.now - e.statement.issuedAt <= terms.maxAge
  }

  /** Reviewer and adversary, when both are present, attest distinct sessions. */
  predicate SessionsDistinct(envelopes: seq<Envelope>) {
    forall i, j | 0 <= i < |envelopes| && 0 <= j < |envelopes| ::
      (envelopes[i].statement.binding.role == ReviewerRole
       && envelopes[j].statement.binding.role == AdversaryRole) ==>
        envelopes[i].statement.binding.session != envelopes[j].statement.binding.session
  }

  /** Everything that must hold before a nonce is touched. */
  predicate SetSound(terms: Terms, envelopes: seq<Envelope>) {
    && envelopes != [] && terms.maxAge >= 0 && terms.maxSkew >= 0
    && UniqueRoles(envelopes) && Roles(envelopes) == terms.expectations.Keys
    && SessionsDistinct(envelopes)
    && (forall i :: 0 <= i < |envelopes| ==> EnvelopeSound(terms, envelopes[i]))
    && Distinct(NoncesOf(envelopes))
  }

  /** The checks before consumption, in the order they are made. */
  method CheckSet(terms: Terms, envelopes: seq<Envelope>) returns (sound: bool)
    ensures sound <==> SetSound(terms, envelopes)
  {
    if envelopes == [] || terms.maxAge < 0 || terms.maxSkew < 0 {
      return false;
    }
    if !UniqueRoles(envelopes) || Roles(envelopes) != terms.expectations.Keys || !SessionsDistinct(envelopes) {
      return false;
    }
    for i := 0 to |envelopes|
      invariant forall k :: 0 <= k < i ==> EnvelopeSound(terms, envelopes[k])
    {
      var e := envelopes[i];
      if !terms.verifies(e) || e.statement.binding.role !in terms.expectations
        || e.statement.binding != terms.expectations[e.statement.binding.role]
        || e.statement.issuedAt > terms.now + terms.maxSkew
        || terms.now - e.statement.issuedAt > terms.maxAge
      {
        assert !EnvelopeSound(terms, envelopes[i]);
        return false;
      }
    }
    sound := AllDistinct(NoncesOf(envelopes));
  }

  /** Verifies the set as one batch, then consumes every nonce at once; the statements in no order. */
  method VerifyAttestationSet(
    ledger: SqliteNonceLedger, terms: Terms, envelopes: seq<Envelope>, conditions: Conditions)
    returns (verified: Option<multiset<Statement>>)
    modifies ledger
    ensures ledger.used == old(ledger.used)
              + if SetSound(terms, envelopes) && Commits(conditions, old(ledger.used), NoncesOf(envelopes))
                then SetOf(NoncesOf(envelopes)) else {}
    ensures verified.Some? <==>
              && SetSound(terms, envelopes) && Commits(conditions, old(ledger.used), NoncesOf(envelopes))
              && !conditions.LostAfterClose?
    ensures verified.Some? ==> verified.value == multiset(StatementsOf(envelopes))
  {
    var sound := CheckSet(terms, envelopes);
    if !sound {
      return None;
    }
    var reservation := ledger.ReserveMany(NoncesOf(envelopes), conditions);
    if reservation != Reserved {
      return None;
    }
    return Some(multiset(StatementsOf(envelopes)));
  }

  /** The same over the ledger that lives in memory. */
  method VerifyInMemory(ledger: InMemoryNonceLedger, terms: Terms, envelopes: seq<Envelope>)
    returns (verified: Option<multiset<Statement>>)
    modifies ledger
    ensures verified.Some? <==>
              SetSound(terms, envelopes) && SetOf(NoncesOf(envelopes)) !! old(ledger.used)
    ensures ledger.used == old(ledger.used) + if verified.Some? then SetOf(NoncesOf(envelopes)) else {}
    ensures verified.Some? ==> verified.value == multiset(StatementsOf(envelopes))
  {
    var sound := CheckSet(terms, envelopes);
    if !sound {
      return None;
    }
    var reserved := ledger.ReserveMany(NoncesOf(envelopes));
    return if reserved then Some(multiset(StatementsOf(envelopes))) else None;
  }

  // ---------------------------------------------------------------- over any sequence of calls

  datatype Kind = InMemory | Sqlite

  datatype Call = Call(terms: Terms, envelopes: seq<Envelope>, conditions: Conditions)

  /** The call consumes its nonces. */
  predicate Consumes(kind: Kind, used: set<string>, call: Call) {
    && SetSound(call.terms, call.envelopes)
    && match kind
       case InMemory => SetOf(NoncesOf(call.envelopes)) !! used
       case Sqlite => Commits(call.conditions, used, NoncesOf(call.envelopes))
  }

  /** The call returns its statements. */
  predicate Returns(kind: Kind, used: set<string>, call: Call) {
    Consumes(kind, used, call) && (kind.Sqlite? ==> !call.conditions.LostAfterClose?)
  }

  function After(kind: Kind, used: set<string>, call: Call): set<string> {
    if Consumes(kind, used, call) then used + SetOf(NoncesOf(call.envelopes)) else used
  }

  function AfterAll(kind: Kind, calls: seq<Call>): set<string> {
    if calls == [] then {} else After(kind, AfterAll(kind, calls[..|calls| - 1]), calls[|calls| - 1])
  }

  /** Each call of a run over the file-backed ledger is one call of the method. */
  method ApplySqlite(ledger: SqliteNonceLedger, call: Call) returns (returned: bool)
    modifies ledger
    ensures ledger.used == After(Sqlite, old(ledger.used), call)
    ensures returned <==> Returns(Sqlite, old(ledger.used), call)
  {
    var verified := VerifyAttestationSet(ledger, call.terms, call.envelopes, call.conditions);
    returned := verified.Some?;
  }

  method ApplyInMemory(ledger: InMemoryNonceLedger, call: Call) returns (returned: bool)
    modifies ledger
    ensures ledger.used == After(InMemory, old(ledger.used), call)
    ensures returned <==> Returns(InMemory, old(ledger.used), call)
  {
    var verified := VerifyInMemory(ledger, call.terms, call.envelopes);
    returned := verified.Some?;
  }

  /** The i-th call returned its statements. */
  predicate Accepted(kind: Kind, calls: seq<Call>, i: nat)
    requires i < |calls|
  {
    Returns(kind, AfterAll(kind, calls[..i]), calls[i])
  }

  lemma {:induction false} ConsumedStaysConsumed(kind: Kind, calls: seq<Call>, i: nat)
    requires i <= |calls|
    ensures AfterAll(kind, calls[..i]) <= AfterAll(kind, calls)
  {
    if i == |calls| {
      assert calls[..i] == calls;
    } else {
      ConsumedStaysConsumed(kind, calls[..|calls| - 1], i);
      assert calls[..|calls| - 1][..i] == calls[..i];
    }
  }

  lemma {:induction false} AcceptedIsConsumed(kind: Kind, calls: seq<Call>, i: nat)
    requires i < |calls| && Accepted(kind, calls, i)
    ensures SetOf(NoncesOf(calls[i].envelopes)) <= AfterAll(kind, calls[..i + 1])
  {
    assert calls[..i + 1][..i] == calls[..i];
  }

  /** No nonce ever belongs to two accepted sets, over either ledger. */
  lemma {:induction false} NoReplay(kind: Kind, calls: seq<Call>, i: nat, j: nat)
    requires i < j < |calls| && Accepted(kind, calls, i) && Accepted(kind, calls, j)
    ensures SetOf(NoncesOf(calls[i].envelopes)) !! SetOf(NoncesOf(calls[j].envelopes))
  {
    AcceptedIsConsumed(kind, calls, i);
    ConsumedStaysConsumed(kind, calls[..j], i + 1);
    assert calls[..j][..i + 1] == calls[..i + 1];
  }

  /** A consumed nonce was part of a set whose every check had passed. */
  lemma {:induction false} ConsumedOnlyIfSound(kind: Kind, calls: seq<Call>, nonce: string) returns (i: nat)
    requires nonce in AfterAll(kind, calls)
    ensures i < |calls| && SetSound(calls[i].terms, calls[i].envelopes)
    ensures nonce in NoncesOf(calls[i].envelopes)
  {
    var front, last := calls[..|calls| - 1], calls[|calls| - 1];
    if nonce in AfterAll(kind, front) {
      i := ConsumedOnlyIfSound(kind, front, nonce);
    } else {
      i := |front|;
    }
  }
}
