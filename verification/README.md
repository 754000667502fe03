# Evidence and budget machinery of the AI review tools, modelled in Dafny

This project models the part of the repository that decides whether an AI review may be trusted, and
proves what it promises.  It covers

* the packet-wide **reservation ledger** that charges every broker attempt before it is launched, its
  two independently written writers, the evidence rebuilt from it, and the validators that reconcile
  two successful executions with the final ledger (`BrokerLedger`, `LedgerRuns`, `FinalLedger`,
  `Finalization`, `BatchRuns`, `AttestedLedger`);
* the **egress lifecycle**: a gateway and two networks that are provisioned, inspected, removed and
  proved absent by the root-owned outer executor and by the coordinator's own session, and the
  coordinator's independent re-derivation of both (`Inspect`, `Revalidation`, `Lifecycle`, `Teardown`,
  `EgressSession`, `SampleGateway`, `PostInspection`, `LifecycleEvidence`, `OuterExecution`, `OuterEvidence`,
  `LaunchRuns`, `BatchExecution`);
* the **bounded process run** and the **full-duplex relay**, loops over partial reads and writes
  (`BoundedRun`, `Relay`);
* **canonical JSON** with a complete strict parser over UTF-8, and the two encoders that order keys
  differently (section 3.2.3 of RFC 8785 and plain code-point order) (`Utf8`, `CanonicalJson`,
  `JsonRoundTrip`, `CanonicalOrder`);
* **nonces, derivation and judging**: from raw offline runs to the attested verdict (`Models`,
  `Manifest`, `Judge`, `JudgeVerdict`, `Derive`, `DeriveFacts`, `Nonces`, `TrustedRequests`,
  `AttestedJudge`, `AttestedVerdict`, `DerivedRequests`);
* the strict-schema rewrite (`StrictSchema`) and the four-level search cache (`SearchCache`).

SHA-256 is a free constructor, so it is injective by construction; signature verification is a
parameter.  A `BEGIN IMMEDIATE` block is one atomic step.  The container runtime is a script that
answers the n-th command arbitrarily, so a statement about every script is a statement about every
failure pattern: a command may raise, fail, or fail after it took effect.  Sockets, pipes and
deadlines are schedules in the same way.  Code that updates state is a class or a loop proved against
a specification function; code made of expressions is functions.  Every lemma turns automatic
induction off, so each proof is the one written.

`dafny verify dfyconfig.toml` checks everything.

## What the proofs found

The code is kept as it is; where a promise holds only under a condition, the exact condition is
proved.

* The session's exit promises removal and absence whatever fails, but its post-inspection catches only
  the validators' own error, and the gateway validator uses the name and the option items as strings
  without testing them.  A gateway inspected with the number 5 among its dropped capabilities makes the
  exit raise before anything is removed or probed, with the session still open
  (`NumberAmongCapabilitiesCrashes`, `NumberAsNameCrashes`).  All three resources are attempted exactly
  when that does not happen (`Session.Exit`, `EscapesExactlyOnNonStrings`).  The outer executor catches
  everything its body raises, so its teardown is unconditional (`OuterRun.Execute`), and so is the
  session's after a failed provisioning (`Session.Enter`).
* The final validator alone does not check that an execution's own record is in its own snapshot; the
  payload decoder does.  A concrete pair shows the difference (`ValidatorAloneIsWeaker`), and with the
  check acceptance means exactly that a legal history exists (`RealizableIffOwnRecord`,
  `FinalizesIffProduced`).
* The outer writer looks only at the requesting role's attempts, so on a table with a gap in the other
  role it accepts what the coordinator-side writer refuses (`WritersDifferOnAGap`, and exactly when in
  `WritersDifferExactly`); no run of the two writers ever produces such a gap (`RunKeepsInvariant`,
  `WritersAgree`).
* The outer executor's gateway validator iterates `CapDrop` and `SecurityOpt`, so it accepts JSON
  objects with the right keys, and it does not insist on a running gateway; the coordinator demands
  lists and a running gateway (`OuterGatewayAccepted`).
* The coordinator's member loop compares raw names with stripped ones: `g` followed by `/g` passes, and
  whether it passes depends on the order, so canonical bytes of an accepted network can be refused: they
  are accepted exactly when they fit and the bare name, where it occurs, has the least key
  (`CheckerMembersAcceptMore`, `KeyOrderMatters`, `NetworkRevalidates`).
* The lifecycle validator wants the whole gateway shape in the inspection before removal, while the
  session only checks ownership there (`SessionMeetsValidator`).
* Exiting a session that was never entered returns normally; an exit that fails while hashing its
  evidence leaves the session open (`Session.Exit`).
* A failure after a commit leaves the charge or the nonces consumed (`ReserveAttempt`,
  `SqliteNonceLedger.ReserveMany`); conservation is stated with that.
* Deriving the evidence from offline runs makes most of the judge's own refusals unreachable: after
  honest verification only the packet and broker evidence, missing runs or reviews, a TaskSpec without a
  test and the TaskSpec, policy and review requests can still refuse (`BuildableExactly`).
* The two canonical encoders agree exactly when no object has two keys that first differ in one code
  point of U+E000..U+FFFF and one above U+FFFF (`EncodersAgree`).
* In the schema rewrite `properties: null` counts as absent, and a property named `default` is dropped
  (`VisitIffConvertible`, `VisitPreserves`).
* Scoring binds its weights when it is imported while the cache key names the current ones
  (`StaleWeights`), so a search agrees with the uncached pipeline exactly when it reuses no scores or
  those it reuses had been computed with the weights bound now (`RunProductSearch`); normalized and scored files have no TTL, and all four caches are written even when
  caching is off.

## Model

| member | source | states |
|---|---|---|
| `BrokerLedger.AccumulateRows` | tools/ai_review/broker_executor.py:632-668 | one pass over the rows is valid exactly when every row is well formed, and then yields each role's attempt numbers in list order and the token and cost sums of the whole list |
| `BrokerLedger.BuildLedgerEvidence` | tools/ai_review/broker_executor.py:619-723 | evidence is built exactly when every row is well formed, each role's attempts are 1, 2, ... in list order, both totals are within their caps, the pricing is approved and the measuring time is positive; it then reports exactly those rows and totals |
| `BrokerLedger.ReservationTable.ReserveAttempt` | tools/ai_review/broker_executor.py:826-947 | the coordinator-side writer: the table grows by exactly the requested charge when the transaction commits and the reserve rule and the rebuilt evidence allow it, and is untouched otherwise; success needs in addition that the file identity survives the commit; which limit is named on a rejection |
| `BrokerLedger.ReservationTable.Reserve` | tools/ai_review/broker_outer_executor.py:1323-1431 | the outer writer: the same for the rule without rebuilt evidence, and the payload reports the totals and rows after the charge |
| `BrokerLedger.ReservationTable.MeasureFrozen` | tools/ai_review/broker_outer_executor.py:1434-1557 | the final measurement changes nothing and returns evidence exactly when the packet has charges and its rows build; the evidence is that of the ordered selection |
| `BrokerLedger.FreshKey` | tools/ai_review/broker_executor.py:855-897 | the next attempt of a role never collides with the primary key, so the insert cannot be refused for that |
| `BatchRuns.Apply` | tools/ai_review/broker_executor.py:826-947 | one call of either writer changes the table exactly as one step of a run does |
| `LedgerRuns.RunKeepsInvariant` | tools/ai_review/broker_executor.py:826-947 | in every run of both writers, any packets and failures interleaved, every packet has attempts 1..k with k at most 2 per role and token and cost sums within the caps, and the table satisfies its constraints |
| `LedgerRuns.StepKeepsInvariant` | tools/ai_review/broker_executor.py:844-908 | one admitted charge preserves that invariant for every packet at once |
| `LedgerRuns.NothingLost` | tools/ai_review/broker_executor.py:844-921 | no later event removes or changes a committed charge |
| `LedgerRuns.InvariantBuilds` | tools/ai_review/broker_executor.py:726-738 | on the invariant every packet's ordered selection builds, and the two ways of summing a packet give the same totals |
| `LedgerRuns.WritersAgree` | tools/ai_review/broker_outer_executor.py:1348-1403 | on every ledger satisfying the invariant the two writers accept the same requests |
| `LedgerRuns.WritersDifferExactly` | tools/ai_review/broker_outer_executor.py:1348-1403 | on any stored table an admitted request is refused by the coordinator-side writer exactly when the other role's attempts have a gap or a row of the packet exceeds the context window |
| `LedgerRuns.WritersDifferOnAGap` | tools/ai_review/broker_outer_executor.py:1348-1403 | such a table and request, where only the outer writer accepts |
| `LedgerRuns.AdmitsOnProjection` | tools/ai_review/broker_executor.py:844-895 | the reserve rule depends on the request's own packet only |
| `LedgerRuns.RunProjectsToLegalLog` | tools/ai_review/broker_executor.py:826-947 | seen from one packet, every run is a history in which each charge obeyed the reserve rule when it was added |
| `BatchRuns.LegalLogIsARun` | tools/ai_review/broker_outer_executor.py:1323-1431 | conversely every such history is what some run leaves in an empty table |
| `FinalLedger.BuildIffLegalHistory` | tools/ai_review/broker_executor.py:619-723 | the evidence builder accepts a list of records exactly when the list, read left to right, is such a history |
| `FinalLedger.AttemptsInListOrder` | tools/ai_review/broker_executor.py:666-667 | when a role's attempts ascend in list order, ordering by attempt changes nothing |
| `FinalLedger.RealizableIffOwnRecord` | tools/ai_review/broker_executor.py:1246-1322 | two executions the final validator accepts hold their own records if and only if an order of the final records obeys the reserve rule at each step, both snapshots occur in it as intermediate ledgers and the later one is last |
| `BatchRuns.ValidatorAloneIsWeaker` | tools/ai_review/broker_executor.py:1246-1322 | without the own-record check the final validator accepts a concrete pair that no order of reservations produces |
| `Finalization.FinalizesIffProduced` | tools/ai_review/broker_phase_protocol.py:880-1061 | the decoder and the final validator together accept two payloads and a frozen ledger exactly when some legal history produces them with each role stopping at its success |
| `Finalization.ProducedFinalizes` | tools/ai_review/broker_phase_protocol.py:1003-1073 | completeness: whatever the interleaving of the two roles, the two payloads and the frozen ledger of such a history are accepted |
| `Finalization.FinalizedIsProduced` | tools/ai_review/broker_phase_protocol.py:1003-1073 | soundness: accepted payloads and ledger come from such a history, which is constructed |
| `BatchRuns.SuccessIsPayload` | tools/ai_review/broker_outer_executor.py:1348-1431 | a successful reservation inside any run yields the payload of that point of the packet's own history |
| `BatchRuns.RunFinalizes` | tools/ai_review/broker_executor.py:1272-1318 | in every run, with other packets and failed attempts anywhere, the payloads of the two successes and the ledger frozen after them finalize |
| `AttestedLedger.ValidateFinalRecords` | tools/ai_review/attested_judge.py:330-421 | the judge's own reading returns the records exactly when every record is in bounds, each role has attempts 1 or 1 and 2, the recomputed totals are the reported ones and within the caps, and each execution has exactly one matching record |
| `AttestedLedger.FinalizedLedgerAccepted` | tools/ai_review/attested_judge.py:1489-1502 | that reading never refuses a ledger the final validator accepted under the same packet and cap |
| `AttestedLedger.LedgerAcceptedIffHistory` | tools/ai_review/attested_judge.py:365-400 | on records within the model window it accepts exactly the legal histories that charge both roles, with honest totals |
| `BoundedRun.RunBoundedBroker` | tools/ai_review/broker_executor.py:1335-1450 | under every schedule a result is returned exactly when all three pipes close before the deadline, both outputs fit and the process exits in time; it then holds every byte written before each end of file; and on every exit, failing ones included, the process has got exactly the input it took up to the event at which the run ended |
| `BoundedRun.OutputPipe.Serve` | tools/ai_review/broker_executor.py:1405-1424 | one event keeps what the pipe holds equal to what its channel carried up to end of file, or fails exactly when that exceeds the limit, storing nothing |
| `BoundedRun.ShortInputRefused` | tools/ai_review/broker_executor.py:1391-1400 | input is cut short only by a write that takes nothing |
| `Utf8.DecodeIffEncode` | tools/ai_review/broker_phase_protocol.py:95-130 | strict UTF-8 decoding accepts exactly the encoder's image and is its inverse |
| `Utf8.KeyOrders` | tools/ai_review/attestation.py:60-75 | the UTF-16 key order is the code-point order except on keys that first differ in a pair of one code point in U+E000..U+FFFF and one above U+FFFF |
| `Utf8.LessTotal` | tools/ai_review/attestation.py:60-75 | lexicographic comparison is a total order on distinct keys |
| `JsonRoundTrip.ParseEmit` | tools/ai_review/broker_phase_protocol.py:95-130 | the strict parser reads an emitted value back and stops exactly at its end, whatever follows |
| `JsonRoundTrip.EmitInjective` | tools/ai_review/broker_phase_protocol.py:95-105 | distinct values are emitted as distinct texts |
| `CanonicalOrder.SortedUnique` | tools/ai_review/broker_phase_protocol.py:95-105 | a sorted member list is determined by its members |
| `CanonicalOrder.EqualIffNormal` | tools/ai_review/broker_phase_protocol.py:95-105 | two values are equal as decoded JSON exactly when they have the same normal form |
| `CanonicalOrder.PrintIdentifies` | tools/ai_review/attestation.py:55-89 | two values print the same text exactly when they are equal, so insertion order is irrelevant and nothing else is |
| `CanonicalOrder.ParseOfPrint` | tools/ai_review/broker_phase_protocol.py:95-130 | parsing printed text returns the normal form of the value |
| `CanonicalOrder.StrictReadsBack` | tools/ai_review/broker_phase_protocol.py:108-130 | the strict reader accepts the canonical bytes of any dictionary within the size limit and returns it |
| `CanonicalOrder.StrictAcceptsPrinted` | tools/ai_review/broker_phase_protocol.py:108-130 | on documents whose numbers are integers the strict reader accepts exactly the printer's image, and returns an equal value |
| `CanonicalOrder.EncodersAgree` | tools/ai_review/attestation.py:55-89 | the attestation and broker encoders give the same text exactly when no object has two keys that the two orders rank differently |
| `CanonicalOrder.EncodersPrintAlike` | tools/ai_review/attestation.py:55-89 | the printed texts agree exactly under that condition, and so do the bytes whenever both encoders yield any |
| `CanonicalOrder.BasicPlaneNotInverted` | tools/ai_review/attestation.py:60-75 | keys in the Basic Multilingual Plane never tell the two encoders apart |
| `CanonicalOrder.EncodersDiffer` | tools/ai_review/attestation.py:60-75 | U+E000 beside U+10000: the encoders order the members differently |
| `Inspect.OuterMembersAccepted` | tools/ai_review/broker_outer_executor.py:984-996 | a member list the outer loop accepts is accepted by the coordinator with the same names |
| `Inspect.CheckerMembersAcceptMore` | tools/ai_review/broker_egress_provisioner.py:366-378 | the converse fails: a container attached as g and as /g passes the coordinator's loop only |
| `Inspect.OuterNetworkAccepted` | tools/ai_review/broker_outer_executor.py:999-1020 | a bounded network inspection the outer executor accepts is accepted by the coordinator with the same canonical bytes |
| `Inspect.OuterGatewayAccepted` | tools/ai_review/broker_outer_executor.py:1023-1069 | a bounded gateway inspection the outer executor accepts is accepted by the coordinator exactly when both option lists are JSON lists and, if asked, the gateway is running |
| `Inspect.OuterOwnedAccepted` | tools/ai_review/broker_outer_executor.py:1072-1092 | an ownership inspection the outer executor accepts is accepted by the coordinator exactly when it can be re-encoded |
| `Revalidation.NetworkRevalidates` | tools/ai_review/broker_egress_provisioner.py:381-404 | the canonical bytes of an accepted network are accepted again, unchanged, exactly when they fit and the attachment bearing the gateway's bare name, if there is one, has the least key |
| `Revalidation.KeyOrderIff` | tools/ai_review/broker_egress_provisioner.py:366-378 | the member loop run on the canonical, key-ordered attachments finds the gateway alone again exactly when the bare name has the least key |
| `Revalidation.GatewayRevalidates` | tools/ai_review/broker_egress_provisioner.py:412-476 | the canonical bytes of an accepted gateway are accepted again, unchanged, exactly when they fit |
| `Revalidation.SingleMemberKeepsOrder` | tools/ai_review/broker_egress_provisioner.py:366-378 | the canonical bytes of an accepted network with one attachment are accepted again exactly when they fit |
| `Revalidation.KeyOrderMatters` | tools/ai_review/broker_egress_provisioner.py:366-378 | two equal attachment dictionaries of which the coordinator's loop accepts only one |
| `Lifecycle.BuildersAgree` | tools/ai_review/broker_phase_protocol.py:1076-1136 | the commands of a lifecycle, rendered by the outer executor's builders, are the four argument-vector sequences the coordinator derives with its own |
| `Teardown.CleanTargets` | tools/ai_review/broker_egress_provisioner.py:1023-1062 | whatever may exist and whatever fails, each created resource is inspected in order and removed at once when that inspection shows it owned; it succeeds exactly when each was shown owned and its removal exited zero |
| `Teardown.CheckAbsences` | tools/ai_review/broker_egress_provisioner.py:1063-1085 | whatever may exist, exactly the created names are probed, all of them; success means that each probe exited zero and was silent |
| `Teardown.TeardownAttempts` | tools/ai_review/broker_egress_provisioner.py:1048-1085 | so every created resource is inspected, removed if shown owned, and later probed, at positions of the trace |
| `Teardown.TakenDown` | tools/ai_review/broker_egress_provisioner.py:1048-1085 | a teardown of what the ownership flags name leaves no resource created since then without that |
| `Teardown.TeardownOfAll` | tools/ai_review/broker_egress_provisioner.py:1023-1085 | with all three resources, success is exactly six removal answers and three silent probes, and these nine commands |
| `EgressSession.Session.Provision` | tools/ai_review/broker_egress_provisioner.py:788-963 | provisioning returns exactly when the runtime and policy match, all ten commands succeed, the three names were free and the three inspections attest the boundary it keeps |
| `EgressSession.Session.PostInspect` | tools/ai_review/broker_egress_provisioner.py:965-1016 | exactly the inspections up to the first that raises; true exactly when all succeed, both networks are byte for byte the attested ones and the gateway still has its shape; it crashes exactly when the networks are as attested and reading the gateway crashes |
| `EgressSession.Session.Cleanup` | tools/ai_review/broker_egress_provisioner.py:1018-1152 | for any set of created resources and any failures the whole teardown follows the post-inspection, unless that crashes, which then lets nothing follow; clean exactly when the post-inspection and the teardown passed, the runtime is the same and no record names the credential |
| `EgressSession.Session.Enter` | tools/ai_review/broker_egress_provisioner.py:1154-1166 | entering succeeds at most once and exactly when provisioning does; otherwise the trace ends with the whole teardown of what may exist, nothing created is left without inspection and absence probe, the session is closed, and the error names a failed clean-up exactly when a step of it failed or the runtime changed |
| `EgressSession.Session.Exit` | tools/ai_review/broker_egress_provisioner.py:1168-1175 | an entered session exits normally exactly when the post-inspection passed, all three names were removed as owned and observed absent, the runtime is unchanged and no record names the credential; whatever fails, all three are inspected and probed exactly when the post-inspection does not crash; a crash escapes, and leaves the session open |
| `PostInspection.ReadingIsExact` | tools/ai_review/broker_egress_provisioner.py:412-476 | the validator crashes exactly on a gateway that reaches its name, or its option items, with one that is no string; never when it accepts |
| `PostInspection.EscapesExactlyOnNonStrings` | tools/ai_review/broker_egress_provisioner.py:965-1016 | an open session's exit lets that crash escape exactly when the earlier records exited zero, all three inspections succeed, both networks are as attested and the gateway is such a one |
| `PostInspection.NumberAmongCapabilitiesCrashes` | tools/ai_review/broker_egress_provisioner.py:447-462 | a gateway as it should be but for a number among its dropped capabilities crashes the validator |
| `PostInspection.NumberAsNameCrashes` | tools/ai_review/broker_egress_provisioner.py:455-456 | so does one whose name is a number |
| `PostInspection.StringsAreAccepted` | tools/ai_review/broker_egress_provisioner.py:412-476 | the same gateway with strings only is accepted |
| `LifecycleEvidence.OpenSession` | tools/ai_review/broker_egress_provisioner.py:1154-1166 | a session opens exactly when the runtime and policy match and ten commands attest a boundary, which it then holds together with exactly those ten answers |
| `LifecycleEvidence.CloseSession` | tools/ai_review/broker_egress_provisioner.py:1086-1152 | an opened session emits evidence exactly when its exit's answers are right, the runtime is unchanged and no record names the credential; the evidence holds exactly its 10, 3, 6 and 3 commands and their answers, nothing else having been issued by the exit |
| `LifecycleEvidence.SessionMeetsValidator` | tools/ai_review/broker_egress_provisioner.py:1209-1532 | the lifecycle validator accepts such evidence exactly when the time is in bounds, the runtime is still the same, the canonical inspections fit and do not rely on the order of attachments, the gateway had its whole shape when it was removed, and the three names are still absent |
| `LifecycleEvidence.BoundaryRevalidatesIff` | tools/ai_review/broker_egress_provisioner.py:1318-1360 | the attested boundary passes its own validators again exactly when its three parts fit and in neither network an attachment with the gateway's bare name relied on coming first |
| `OuterExecution.OuterRun.ChargeAndLaunch` | tools/ai_review/broker_outer_executor.py:1756-1778 | the broker container starts if and only if the charge committed and its payload was returned; the table grows by exactly that charge, also when the call fails after the commit |
| `OuterExecution.OuterRun.Finish` | tools/ai_review/broker_outer_executor.py:1815-1865 | whatever may exist and whatever failed, a pending broker container is told to go and the whole teardown follows; it succeeds exactly when that removal, every owned removal and every absence probe did |
| `OuterExecution.OuterRun.Execute` | tools/ai_review/broker_outer_executor.py:1583-1916 | evidence is returned exactly when the charge was reserved, all twenty-five answers are right and the runtime is unchanged, and it holds exactly those commands and answers; on every path, failing ones included, everything created was inspected, removed if owned and probed, a launched container was told to go, and a failed clean-up is reported exactly when a step of it failed; the table and the launches change together |
| `OuterEvidence.EmittedIsProduced` | tools/ai_review/broker_outer_executor.py:1870-1916 | whatever a run returns satisfies the guarantees the coordinator relies on |
| `OuterEvidence.IssuedAsExpected` | tools/ai_review/broker_phase_protocol.py:1076-1136 | the 10, 3, 6 and 3 commands of a run are those the coordinator expects |
| `OuterEvidence.ProducerMeetsChecker` | tools/ai_review/broker_phase_protocol.py:1139-1566 | the coordinator accepts a successful run exactly when the gateway was running with list-valued options, no stream assigns or names the credential, times are in bounds, the probes and the envelope are valid and the clean-up inspections can be re-encoded |
| `LaunchRuns.Apply` | tools/ai_review/broker_outer_executor.py:1583-1916 | one outer execution changes its table and its launches exactly as one step of a run does |
| `LaunchRuns.LaunchesAlwaysCharged` | tools/ai_review/broker_outer_executor.py:1756-1771 | in every run of outer executions and reservations, failing ones included, no attempt is launched twice and every launch has a committed charge of its packet, role and attempt |
| `LaunchRuns.AtMostTwoLaunches` | tools/ai_review/broker_outer_executor.py:1756-1771 | so a packet never has more than two launches per role |
| `LaunchRuns.LaunchCostWithinCap` | tools/ai_review/broker_outer_executor.py:1359-1373 | and the reserved cost of all its launches stays within the packet cap |
| `BatchExecution.ExecuteBatch` | tools/ai_review/broker_outer_executor.py:1958-2023 | the whole batch: two runs on a ledger any history left, then the frozen ledger; evidence comes back exactly when both runs complete and the ledger can be read, and the coordinator's whole finalizer accepts it exactly when both runs meet the acceptance conditions |
| `BatchExecution.SuccessesFinalize` | tools/ai_review/broker_phase_protocol.py:1573-1645 | two committed charges after any history, their payloads and the ledger frozen after them are never refused by the ledger side of the finalizer |
| `Manifest.BuildTestManifest` | tools/ai_review/judge.py:17-31 | the loop digests the framed pairs of the sorted paths, or gives nothing when a path has no content hash |
| `Manifest.FramedInjective` | tools/ai_review/judge.py:24-30 | the length-framed encoding of (path, content) pairs is uniquely decodable |
| `Manifest.ManifestIdentifiesContent` | tools/ai_review/judge.py:17-31 | two manifests are equal exactly when the sorted pair lists are equal |
| `Manifest.ManifestIgnoresOrder` | tools/ai_review/judge.py:22-22 | the order of the test paths is irrelevant |
| `Judge.JudgePolicy` | tools/ai_review/judge.py:50-61 | exactly the policy reasons that hold, violations included |
| `Judge.JudgeTdd` | tools/ai_review/judge.py:63-114 | exactly the reasons that hold of a TDD record |
| `Judge.JudgeCoverage` | tools/ai_review/judge.py:116-125 | missing, unknown and repeated gates, each exactly when there are any |
| `Judge.JudgeGates` | tools/ai_review/judge.py:126-151 | exactly the reasons that hold of some gate |
| `Judge.JudgeReviews` | tools/ai_review/judge.py:161-188 | exactly the reasons that hold of some review, and a blocker for every critical or high finding and no other |
| `JudgeVerdict.JudgeEvidence` | tools/ai_review/judge.py:34-221 | for all inputs satisfying the model validators the verdict passes its own validator; it asks for human review exactly on clean evidence, and a failing one lists exactly the reasons and blockers that hold |
| `JudgeVerdict.CleanIff` | tools/ai_review/judge.py:50-194 | no reason holds exactly when the evidence is clean, stated independently as bindings met, contracts met, gates covering the TaskSpec once and passing, and two accepting reviews |
| `JudgeVerdict.BlockersComeWithReasons` | tools/ai_review/models.py:243-256 | a blocking finding never occurs with empty reasons, because such a review cannot accept |
| `JudgeVerdict.CleanGatesPass` | tools/ai_review/models.py:357-371 | clean evidence has gates, and all of them pass |
| `Derive.ExactlyOnce` | tools/ai_review/attested_judge.py:495-500 | the dictionary by key when no key repeats, and nothing otherwise |
| `Derive.VerifyReds` | tools/ai_review/attested_judge.py:1045-1068 | every test acceptance gets its verified RED snapshot with the candidate's own manifest, or one of them has none |
| `Derive.MeasureRuns` | tools/ai_review/attested_judge.py:1085-1100 | every raw run is validated against the snapshot its phase executed, or one of them is refused |
| `Derive.DeriveArtifacts` | tools/ai_review/attested_judge.py:1001-1254 | the loops derive the declared artifacts, or nothing as soon as one check fails |
| `DeriveFacts.OrderIrrelevant` | tools/ai_review/attested_judge.py:1070-1083 | the order of the raw runs and RED snapshots does not matter |
| `DeriveFacts.ArtifactsFaithful` | tools/ai_review/attested_judge.py:1102-1254 | one gate per acceptance and one record per test acceptance, in task order, each bound to this TaskSpec; exit codes, logs, fingerprint, snapshots, manifest and test patch are those of the verified runs of its phases and of its verified RED snapshot, and the kept runs are just these |
| `DeriveFacts.MeasuredFromRaw` | tools/ai_review/attested_judge.py:1070-1100 | each of those runs is the verified form of the one raw run of that phase and acceptance |
| `DeriveFacts.DerivedTddFaults` | tools/ai_review/judge.py:63-114 | the judge says of a derived record exactly what its two runs, its RED snapshot and the diff measured: a wrong exit code or fingerprint, absent paths, or a manifest that differs or cannot be derived |
| `DeriveFacts.DerivedGateFaults` | tools/ai_review/judge.py:126-151 | the judge says of a derived gate that it failed exactly when the run of that gate exited otherwise than expected, and nothing else |
| `DeriveFacts.DerivedGatesCover` | tools/ai_review/judge.py:116-125 | derived gates are never missing, unknown or repeated |
| `Nonces.InMemoryNonceLedger.ReserveMany` | tools/ai_review/attestation.py:184-192 | reserves all nonces when they are distinct and unused, and none otherwise |
| `Nonces.SqliteNonceLedger.ReserveMany` | tools/ai_review/attestation.py:288-345 | all or none are inserted; a file lost after the commit raises although they stay consumed |
| `Nonces.CheckSet` | tools/ai_review/attestation.py:404-447 | true exactly when the roles are the expected ones once each and every signature, binding, time and session check holds |
| `Nonces.VerifyAttestationSet` | tools/ai_review/attestation.py:392-457 | statements are returned exactly when every check holds and all nonces were fresh; nonces are consumed exactly when every check held and the insert committed |
| `Nonces.VerifyInMemory` | tools/ai_review/attestation.py:392-457 | the same over the ledger in memory, where the statements are returned exactly when the nonces are consumed |
| `Nonces.ApplySqlite` | tools/ai_review/attestation.py:288-345 | one call over the file-backed ledger is exactly one step of a run |
| `Nonces.ApplyInMemory` | tools/ai_review/attestation.py:184-192 | one call over the ledger in memory is exactly one step of a run |
| `Nonces.NoReplay` | tools/ai_review/attestation.py:184-345 | over any sequence of calls sharing a ledger of either kind, two accepted sets never share a nonce |
| `Nonces.ConsumedOnlyIfSound` | tools/ai_review/attestation.py:404-451 | every consumed nonce belongs to a set whose every check had passed |
| `Nonces.ConsumedStaysConsumed` | tools/ai_review/attestation.py:319-345 | a consumed nonce is never released |
| `AttestedJudge.BuildExpectations` | tools/ai_review/attested_judge.py:1723-2210 | expectations are built exactly when the submitted artifacts are the derived ones, the RED and GREEN snapshots are bound and every run's request says what the artifact of its role demands, with its own log, session and model call; each expectation names the digest of its role's artifact, the binding of its run, the snapshot and the image of its kind |
| `AttestedJudge.CheckSnapshots` | tools/ai_review/attested_judge.py:606-633 | true exactly when every record of a test acceptance is of version 2 and has a RED snapshot other than the base, the candidate as GREEN snapshot and the test paths of the TaskSpec |
| `DerivedRequests.OfflineRequestsHold` | tools/ai_review/attested_judge.py:848-899 | for all of a submission's derived gates and records at once, the requests of their runs are those the judge demands of their roles |
| `DerivedRequests.SnapshotsHold` | tools/ai_review/attested_judge.py:606-633 | the RED and GREEN snapshots of derived records are always bound |
| `DerivedRequests.InOrderCovered` | tools/ai_review/attested_judge.py:1978-2011 | gates and records in the order of the acceptances cover the TaskSpec unless it has no test |
| `DerivedRequests.BuildableExactly` | tools/ai_review/attested_judge.py:1723-2210 | after honest offline verification expectations are built exactly when the TaskSpec has a test, the packet and broker evidence hold, the runs (with distinct sessions) and the panel are complete and the TaskSpec, policy and review requests are met: no derived gate, record, snapshot or run is refused |
| `AttestedJudge.RolesCovered` | tools/ai_review/attested_judge.py:485-492 | the roles that get an expectation are exactly those the TaskSpec demands |
| `AttestedVerdict.OrdinaryVerdicts` | tools/ai_review/attested_judge.py:2213-2232 | one ordinary verdict per TDD record |
| `AttestedVerdict.JudgeAttested` | tools/ai_review/attested_judge.py:2319-2467 | the verdict is always valid; it passes exactly when expectations were built, a fresh set met all of them and the evidence is clean with nothing to weigh, and the ledger changes only for a set whose every check held |
| `AttestedVerdict.PassIsNotVacuous` | tools/ai_review/attested_judge.py:2360-2467 | a pass asserts a test acceptance, exactly one passing gate per acceptance, one record per test with the declared RED and GREEN results, gates and records that are those of verified runs which measured just that, two distinct accepting roles with nothing above low and nothing unverified, and verified statements for exactly the expected roles, each over the digest of its role's artifact and signing this task, base, head, patch, snapshot, image and log |
| `AttestedVerdict.VerifiedSignsSetting` | tools/ai_review/attested_judge.py:902-944 | every verified statement signs the TaskSpec, base, head and patch of the submission, the snapshot and image of its artifact's kind, and the log that artifact records |
| `AttestedVerdict.StatementsPinArtifacts` | tools/ai_review/attested_judge.py:902-944 | one set of signed statements verifies for one submission only: TaskSpec, policy report and, up to order, gates, records and reviews are pinned by it |
| `Relay.Direction.Serve` | tools/ai_review/egress_gateway.py:145-171 | one readable endpoint: what is received is what was offered next, and everything received is sent in order or the relay fails with a prefix sent; the limit is reported exactly when it would be exceeded |
| `Relay.RelayBytes` | tools/ai_review/egress_gateway.py:130-173 | under every schedule each direction has sent exactly what it received at each turn; on any exit it has received a prefix of what was offered and sent a prefix of that within the cap, with a half-close only after all earlier bytes; the limit is reported exactly when more was received; on a normal return everything offered before both ends of file was delivered |
| `StrictSchema.VisitIffConvertible` | tools/ai_review/codex_adapter.py:477-493 | the rewrite succeeds exactly when every node's properties are null or an object and its additional properties absent or false |
| `StrictSchema.VisitIdempotent` | tools/ai_review/codex_adapter.py:477-493 | a second rewrite changes nothing |
| `StrictSchema.VisitCleans` | tools/ai_review/codex_adapter.py:477-493 | no default is left anywhere; every node with properties is closed and requires exactly its sorted property names |
| `StrictSchema.VisitPreserves` | tools/ai_review/codex_adapter.py:477-493 | apart from dropped defaults and the two rewritten members the tree is the same |
| `StrictSchema.ConvertibleEqual` | tools/ai_review/codex_adapter.py:477-493 | whether a schema converts does not depend on the order of its members |
| `StrictSchema.StrictSchemaHolds` | tools/ai_review/codex_adapter.py:461-497 | all of this for the whole conversion, which succeeds exactly on encodable convertible schemas |
| `SearchCache.JsonCacheRepository.Load` | src/repositories/cache_repository.py:32-59 | the content of a file that exists, is fresh enough and can be read, and nothing otherwise |
| `SearchCache.DamageKeepsMeaning` | src/repositories/cache_repository.py:46-59 | a file becoming unreadable or disappearing never makes a remaining file wrong |
| `SearchCache.Searcher.Suffer` | src/repositories/cache_repository.py:46-59 | so the searcher's invariant survives such damage at any point of its history |
| `SearchCache.Searcher.FindScores` | src/main/run.py:239-254 | cached scores have the current attributes, products and term weights, but the weights bound when they were computed |
| `SearchCache.Searcher.RunProductSearch` | src/main/run.py:135-254 | after any history each answer scores the normalized response under the current settings, from attributes and a response of the same scope no older than their TTL; it equals the answer of the pipeline without a cache exactly when stored scores are not reused or had been computed with the weights bound now; every answer is stored, and a fresh stored answer is repeated without a call |
| `SearchCache.StaleWeights` | src/services/product_scoring.py:435-446 | when weights were changed after scoring was imported, a later search with the right weights still gets scores computed with the old ones |

## Left out

- JSON numbers with a fraction or exponent: the modelled documents hold integers only, and the parser refuses them.
- `casefold` is a parameter of the inspection validators, whose results hold for any folding; `StringsAreAccepted` alone needs it to fold three ASCII strings as it does.
- Field patterns of the pydantic models, path syntax and regular expressions: no property here depends on them.
- CanonicalOrder.StrictAcceptsPrinted: speaks of documents without fractional numbers, which the source's reader also accepts when they re-encode to themselves; so the option items of `PostInspection` hold no fraction either.
- EgressSession.Session.Exit: interpreter limits are not modelled; an inspection nested beyond the recursion limit or holding an integer of more digits than the interpreter converts raises an error that the session does not catch either, in the post-inspection as well as in the ownership check before a removal.
- EgressSession.Session.Enter: an interrupt that is not an ordinary exception passes through provisioning without a clean-up and is not an answer of the runtime here.
- BatchExecution.ExecuteBatch: the byte limit and the digest of the outer evidence stream are not modelled, and neither is another process charging the ledger between the two runs, which `RunFinalizes` covers.
- AttestedJudge.BuildExpectations: the digests of a run's runner, argument vector, request and response are values taken from its binding, not recomputed.
- Signature arithmetic, key loading and base64: one predicate decides whether an envelope verifies.
- Reason texts: a reason is a constructor with its data, and the order of several reasons of one verdict is not stated.
- Test paths holding surrogates or longer than four bytes can count: the digest loop would raise on them.
- Probe output decoding and the broker's response envelope: predicates of the prepared batch.
- The review packet and broker evidence checks inside the attested judge (broker invocations and ledger authorization included): two opaque conditions of `Buildable`.
- Nonces.VerifyAttestationSet: returns the statements as a multiset; their order by role is not stated.
- `cleanup` callbacks of the coordinator-side executor and its egress boundary digest: straight-line checks of single fields.
- `parse_codex_usage_jsonl`: per-line bounds and four sums, with nothing that spans functions.
- Ledger and nonce file permissions, schema text and symlink checks: one environment outcome per call.
- A commit whose outcome is itself unknown: a transaction commits or does not.
- Overlapping searches: normalization re-reads the response by path, so agreement holds for searches one after another.
- `settings` reload and blank input stripping in the search: the request carries stripped input and the settings in force.
- Process spawning, sockets, DNS, TLS, the user interface, HTTP clients and the scoring arithmetic.
- OuterEvidence.ProducerMeetsChecker: the reservation inside the evidence is compared by `Finalization`, not here.
- LifecycleEvidence.SessionMeetsValidator: the environment digest, the image reference and the policy digest of the evidence are fixed by the session's names and are not separate fields; a validator that raises another error than its own refuses.
- BoundedRun.RunBoundedBroker: an operating-system error other than a broken pipe ends the run and is not a schedule entry.
- Relay.RelayBytes: a deadline during a turn is the end of the schedule; the clock itself is not modelled.
