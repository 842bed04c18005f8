# DOM interop: verified models

Dafny models of three parts of the DOM interop code and proofs about them.

**The durable Bitcoin actuator** (`crates/btc-actuator`). Its SQLite tables are maps
in one value (`ActuatorTables`); every transaction body is a function from tables to
tables or a refusal, and a commit goes through the audit or changes nothing
(`ActuatorCalls`). A public call is one step, because the process holds an exclusive
file lock and a mutable borrow for its whole length; the node's answers, the nonce
vault's answers, the clock read after a lookup and the point at which the process dies
are arguments of the call. A log records every send, answer, returned value
and commit. `Sound` and `Evolves` (`ActuatorInvariant`) say what each transaction keeps by
its own guards; `Safe` (`ActuatorLog`) adds the audit and the agreement of the log with
the tables; `ActuatorRuns` holds the theorems about all runs. `DurableActuator` is the
imperative form: an object whose methods work on a copy of the tables and equal the
steps. `Creation` models how the store comes into being, write by write.

**The deployment registry** (`crates/deployment-registry`). `ManifestCodec` and
`SignedRegistry` are the strict binary forms, each encoder written as a function of what
follows so that both directions of every round trip are one-line facts; `ManifestReader`
and `ManifestWriter` are the position-moving reader and the growing buffer.
`RegistryStore` is the monotonic installation.

**Three algorithms of the scripts**: dependency cycles (`DependencyCycles`), test-only
reachability (`TestReachability`), and the framings behind two digests (`SourceDigest`,
`Rlp`).

Digests, signature verification, key membership and the manifest's cross-field rules
are uninterpreted functions passed in. A custody locator is kept as the tuple of facts it
commits to. Scopes are passed as `Capability`, a scope that is well-formed and carries the
commitment to its own fields, because callers can only hold minted ones; that commitment
is a constant function of which nothing is assumed. Where a theorem needs two digests or
transaction ids not to collide, it says so for those two only. Integers are unbounded; 16-, 32-, 64- and 128-bit limits and the
checked additions at them are written out.

Where the code and its text differ:

- The per-vbyte fee cap is enforced by replacements only. Generation zero is admitted at
  any rate its initial fee implies (`ActuatorRuns.ExpensiveRefundIsAdmitted`). The active
  rate stays within the cap in every later run if and only if the prepared size and the
  initial fee meet it (`ActuatorRuns.RateIsCapped`).
- The comment in `dependency_cycles` says each cycle is reported once. It is reported as
  often as its closing dependency is listed, so twice for a repeated one
  (`DependencyCycles.ReportedTwice`). Every cycle is reported at most once for every order
  of the items if and only if no dependency on a cycle is listed twice
  (`DependencyCycles.Cycles`).
- A history row is inserted "or nothing" on its digest. Installation therefore keeps the
  store sound exactly when the digest is new (`RegistryStore.WriteKeeps`), which the
  absence of collisions among the offered manifests guarantees.
- The inline funding classification omits two checks of the shared one; the commit audit
  makes up for them (`ActuatorTables.FundingClassificationsAgree`).

## Model

| member | source | states |
|---|---|---|
| `ActuatorRuns.ProvenMeansNeverExternalized` | crates/btc-actuator/src/store.rs:1027-1062 | In every run, a terminal reconciliation or takeover answers `ProvenNotExternalized` only if no generation of the effect was ever handed to the broadcaster and no earlier reconciliation of it saw it in the mempool, confirmed or final. |
| `ActuatorRuns.FundingProvenMeansNeverExternalized` | crates/btc-actuator/src/store.rs:1397-1517 | The same for opaque funding: neither a broadcast nor an earlier sighting precedes the answer, for reconciliation and for takeover. |
| `ActuatorRuns.SendsNeverExceedAttempts` | crates/btc-actuator/src/store.rs:898-1024 | In every run the number of external sends of an effect is at most its durable `send_attempts`, which no later call lowers. |
| `ActuatorRuns.AtMostOneEffectSent` | crates/btc-actuator/src/store.rs:3297-3331 | Any two sends for one route and leg, over replacements, restarts and takeovers, are of one effect and one action (never a claim and a refund); sends of one generation carry the same bytes. |
| `ActuatorRuns.FeesAreConserved` | crates/btc-actuator/src/store.rs:1065-1149 | In every reachable state the attempts of an effect are exactly generations 0 to the active one, the first pays the policy's initial fee, the last is the active transaction, each conserves contract amount = outputs + fee and the inputs, scripts and non-change outputs of generation zero, fees strictly rise within the caps, the generation is at most maximum − initial fee, a claim never leaves generation zero, and the active rate is within the per-vbyte cap if and only if the effect was replaced or the initial fee is within the cap for generation zero's size. |
| `ActuatorRuns.RateIsCapped` | crates/btc-actuator/src/model.rs:1360-1399 | For every safe state and every successful preparation of a new effect: the active rate is within the per-vbyte cap, at once and after every further run, if and only if the transaction has a size and the initial fee per vbyte meets the cap — the check the admission leaves out. |
| `ActuatorRuns.RateAfter` | crates/btc-actuator/src/store.rs:828-895 | After any further calls the active rate of a newly prepared effect is within the cap if and only if it was replaced meanwhile or met that check when prepared. |
| `ActuatorRuns.ExpensiveRefundIsAdmitted` | crates/btc-actuator/src/model.rs:1360-1399 | A concrete run, with a scope minted by the authorization itself, in which a refund above its per-vbyte cap becomes the active transaction. |
| `ActuatorRuns.OwnershipChanges` | crates/btc-actuator/src/store.rs:558-652 | A call changes the owner or epoch of the lease only by an acquisition at or after the recorded expiry, and then to the caller and the next epoch. |
| `ActuatorRuns.FencesNeverFall` | crates/btc-actuator/src/store.rs:2676-2767 | Over any further calls the clock, the lease epoch and every row's epoch only grow, an epoch keeps its owner, and no row's epoch exceeds the lease's. |
| `ActuatorRuns.SupersededNeverCommits` | crates/btc-actuator/src/store.rs:2734-2767 | Every commit after a state carries an epoch at least that state's lease epoch, and that very owner if equal: nothing commits under a superseded epoch. |
| `ActuatorRuns.ExpiredDuringLookup` | crates/btc-actuator/src/store.rs:2727-2755 | If the lease has expired by the time read after the lookup, none of the four reconciliations commits or answers. |
| `ActuatorRuns.ReturnsAgree` | crates/btc-actuator/src/store.rs:1608-1866 | In every run all nonces returned for an effect are equal, likewise all partials and all pre-signatures, and a partial and a pre-signature agree on transcript and parity. |
| `ActuatorRuns.TranscriptsWriteOnce` | crates/btc-actuator/src/store.rs:3625-3738 | Each transcript column keeps its first value over all later calls, a verified remote partial has every earlier column set, and all transcripts belong to the one bound participant. |
| `ActuatorRuns.OutcomesAgree` | crates/btc-actuator/src/store.rs:708-814 | All answers ever given for a call kind and attempt are one outcome, valid for the kind, of one request against one locator. |
| `ActuatorRuns.JournaledCustodyIsFrozen` | crates/btc-actuator/src/store.rs:2503-2628 | A journaled locator names the current custody row in that state and in every later state. |
| `ActuatorRuns.StagesAreSound` | crates/btc-actuator/src/store.rs:3176-3204 | In every reachable state a final row has block facts, nonzero evidence and at least its frozen minimum of confirmations, a confirmed row between one and the minimum, any other row no block facts. |
| `ActuatorRuns.AnswersMatchStages` | crates/btc-actuator/src/store.rs:1957-1995 | Whatever a reconciliation or takeover returns is the stage, confirmations and height the store then holds. |
| `ActuatorRuns.RunIsSafe` | crates/btc-actuator/src/store.rs:2016-2131 | Every run from a fresh store, with any crashes and answers, ends in tables that pass the audit, are sound without it, and bear out the whole log. |
| `ActuatorRuns.ConfirmedIsNotResent` | crates/btc-actuator/src/store.rs:929-957 | A broadcast of a confirmed effect is refused by the commit audit and changes nothing. |
| `ActuatorRuns.SharedEffectIsNotTakenOver` | crates/btc-actuator/src/store.rs:2078-2079 | A terminal takeover of an effect that also has a claim transcript commits nothing. |
| `ActuatorRuns.SharedClaimIsNotTakenOver` | crates/btc-actuator/src/store.rs:1870-1923 | A claim takeover of an effect that also has an operation commits nothing. |
| `ActuatorRuns.JournaledEffectIsNotReplaced` | crates/btc-actuator/src/store.rs:1065-1149 | In every safe state a replacement of a journaled effect commits nothing, whatever scope and transaction are presented, provided the two transaction ids do not collide. |
| `ActuatorRuns.JournaledEffectIsNotTakenOver` | crates/btc-actuator/src/store.rs:1152-1246 | In every safe state a takeover of a journaled effect commits nothing, whatever scope is presented, provided the two scope digests do not collide: a takeover raises the fence, and the digest commits to it. |
| `ActuatorRuns.JournaledFundingIsNotTakenOver` | crates/btc-actuator/src/store.rs:1521-1604 | The same for journaled funding custody. |
| `ActuatorSteps.AcquireFollows` | crates/btc-actuator/src/store.rs:558-619 | Acquiring keeps the run invariant and moves tables and log forward only. |
| `ActuatorSteps.RenewFollows` | crates/btc-actuator/src/store.rs:622-652 | Renewing keeps the run invariant and moves tables and log forward only. |
| `ActuatorSteps.BroadcastNext` | crates/btc-actuator/src/store.rs:898-1024 | A broadcast, crashed at any point or not, keeps the run invariant under an unchanged lease. |
| `ActuatorSteps.ReconcileNext` | crates/btc-actuator/src/store.rs:1027-1062 | A reconciliation keeps the run invariant, and its answer matches the persisted stage. |
| `ActuatorSteps.TakeoverNext` | crates/btc-actuator/src/store.rs:1152-1246 | A takeover keeps the run invariant, and its answer matches the persisted stage. |
| `ActuatorSteps.BroadcastFundingNext` | crates/btc-actuator/src/store.rs:1306-1394 | A funding broadcast, crashed at any point or not, keeps the run invariant. |
| `ActuatorSteps.ReconcileFundingNext` | crates/btc-actuator/src/store.rs:1397-1517 | A funding reconciliation keeps the run invariant, and its answer matches the persisted stage. |
| `ActuatorSteps.FundingTakeoverNext` | crates/btc-actuator/src/store.rs:1521-1604 | A funding takeover keeps the run invariant, and its answer matches the persisted stage. |
| `ActuatorSteps.NonceNext` | crates/btc-actuator/src/store.rs:1608-1691 | Exposing a nonce keeps the run invariant, and a returned nonce is the one the transcript then holds. |
| `ActuatorSteps.PartialNext` | crates/btc-actuator/src/store.rs:1694-1789 | Producing a partial keeps the run invariant; if anything changed, the presented remote nonce is the one bound; a returned partial is the one the transcript then holds, with its digest and parity. |
| `ActuatorSteps.AggregateNext` | crates/btc-actuator/src/store.rs:1793-1866 | Aggregation keeps the run invariant; if anything changed, even in a refused call, the presented remote nonce and partial are the ones bound; a returned pre-signature has the digest and parity of the transcript, then marked verified. |
| `ActuatorSteps.BeginNext` | crates/btc-actuator/src/store.rs:708-751 | Beginning a port call keeps the run invariant and reserves it for this request and locator; the answer is exactly the outcome the row holds, or none. |
| `ActuatorSteps.OutcomeNext` | crates/btc-actuator/src/store.rs:757-814 | Committing an outcome keeps the run invariant; on success the row of this request and locator holds exactly the outcome presented, which is also returned. |
| `ActuatorTransactions.PrepareKeeps` | crates/btc-actuator/src/store.rs:828-895 | Without the audit: preparing keeps generations, active attempt, choices, lineage and fences sound, and every row moves forward only. |
| `ActuatorTransactions.SendIntentKeeps` | crates/btc-actuator/src/store.rs:907-957 | Without the audit: a send intent keeps the rows sound, records the effect as the choice of its route and leg, and adds exactly one durable attempt to that effect alone unless it is final. |
| `ActuatorTransactions.ReplacementKeeps` | crates/btc-actuator/src/store.rs:1072-1148 | Without the audit: a replacement keeps generations contiguous, the lineage valid and the choice's txid equal to the active one. |
| `ActuatorTransactions.TakeoverKeeps` | crates/btc-actuator/src/store.rs:1205-1245 | Without the audit: a takeover keeps action, route, lineage and choices sound and only raises the fence. |
| `ActuatorTransactions.PersistTerminalKeeps` | crates/btc-actuator/src/store.rs:3380-3453 | Without the audit: persisting a lookup keeps the finality threshold and never returns a touched effect to untouched. |
| `ActuatorTransactions.RecordFundingKeeps` | crates/btc-actuator/src/store.rs:1249-1303 | Without the audit: recorded custody matches its scope and is fenced within the lease. |
| `ActuatorTransactions.FundingIntentKeeps` | crates/btc-actuator/src/store.rs:1321-1362 | Without the audit: a funding intent adds exactly one durable attempt to that row alone unless it is final. |
| `ActuatorTransactions.FundingTakeoverKeeps` | crates/btc-actuator/src/store.rs:1577-1603 | Without the audit: a funding takeover keeps txid, wtxid, refund and custody digests and only raises the fence. |
| `ActuatorTransactions.OpenSigningKeeps` | crates/btc-actuator/src/store.rs:3625-3690 | Binding a signing session never rebinds participant, session, role or authority of an existing transcript. |
| `ActuatorTransactions.PartialKeeps` | crates/btc-actuator/src/store.rs:1762-1787 | Storing a partial writes remote nonce, partial, transcript digest and parity once and equals what is returned. |
| `ActuatorTransactions.AggregateKeeps` | crates/btc-actuator/src/store.rs:1846-1865 | Storing an aggregation writes transcript digest and parity once and marks the transcript verified. |
| `ActuatorTransactions.ClaimTakeoverKeeps` | crates/btc-actuator/src/store.rs:1870-1923 | A claim takeover changes the fence only, upwards. |
| `ActuatorTransactions.OutcomeKeeps` | crates/btc-actuator/src/store.rs:757-814 | An outcome is written at most once per reservation, for the same request and locator, and what the row holds has the presented outcome's bytes. |
| `ActuatorLog.CommitFollows` | crates/btc-actuator/src/store.rs:2016-2131 | A commit by the lease holder keeps log and tables in agreement: every earlier event is still borne out, sends stay counted, epochs stay ordered. |
| `ActuatorLog.EventEvolves` | crates/btc-actuator/src/store.rs:708-1923 | Whatever was sent, answered, returned or committed stays true of any later tables. |
| `ActuatorTables.LookupAnswerMatches` | crates/btc-actuator/src/store.rs:3333-3453 | The answer and the persisted observation of a terminal lookup succeed together, agree, and satisfy the audit and the threshold. |
| `ActuatorTables.FundingClassificationsAgree` | crates/btc-actuator/src/store.rs:3495-3573 | The inline funding match and the shared classification commit the same rows: what the inline match accepts beyond the other, the row audit refuses. |
| `DurableActuator.Actuator.AcquireLease` | crates/btc-actuator/src/store.rs:558-619 | Equals the acquisition step; keeps the run invariant. |
| `DurableActuator.Actuator.RenewLease` | crates/btc-actuator/src/store.rs:622-652 | Equals the renewal step; keeps the run invariant. |
| `DurableActuator.Actuator.PrepareTerminal` | crates/btc-actuator/src/store.rs:828-895 | Equals the preparation step; keeps the run invariant. |
| `DurableActuator.Actuator.BroadcastTerminal` | crates/btc-actuator/src/store.rs:898-1024 | Equals the persist–send–acknowledge step for every crash point and reply; keeps the run invariant. |
| `DurableActuator.Actuator.Acknowledge` | crates/btc-actuator/src/store.rs:963-1023 | Equals the judgement of the node's reply, including the lookup after a failed send; keeps the run invariant. |
| `DurableActuator.Actuator.ReconcileTerminal` | crates/btc-actuator/src/store.rs:1027-1062 | Equals the reconciliation step; `ProvenNotExternalized` means no send and no sighting in the whole earlier log. |
| `DurableActuator.Actuator.PrepareReplacement` | crates/btc-actuator/src/store.rs:1065-1149 | Equals the replacement step; keeps the run invariant. |
| `DurableActuator.Actuator.ReconcileTakeover` | crates/btc-actuator/src/store.rs:1152-1246 | Equals the takeover step; `ProvenNotExternalized` means no send and no sighting in the whole earlier log. |
| `DurableActuator.Actuator.RecordFunding` | crates/btc-actuator/src/store.rs:1249-1303 | Equals the custody step; keeps the run invariant. |
| `DurableActuator.Actuator.BroadcastFunding` | crates/btc-actuator/src/store.rs:1306-1394 | Equals the funding broadcast step for every crash point and reply. |
| `DurableActuator.Actuator.ReconcileFunding` | crates/btc-actuator/src/store.rs:1397-1517 | Equals the funding reconciliation step; `ProvenNotExternalized` means no send and no sighting in the whole earlier log. |
| `DurableActuator.Actuator.ReconcileFundingTakeover` | crates/btc-actuator/src/store.rs:1521-1604 | Equals the funding takeover step, with the same meaning of `ProvenNotExternalized`. |
| `DurableActuator.Actuator.ExposeNonce` | crates/btc-actuator/src/store.rs:1608-1691 | Equals the nonce step; a returned nonce is durable. |
| `DurableActuator.Actuator.ProducePartial` | crates/btc-actuator/src/store.rs:1694-1789 | Equals the partial step; the remote nonce is durable whenever anything is, and a returned partial is durable with its digest and parity. |
| `DurableActuator.Actuator.AggregatePreSignature` | crates/btc-actuator/src/store.rs:1793-1866 | Equals the aggregation step; the remote nonce and partial are durable whenever anything is, and a returned pre-signature is the verified one of the transcript. |
| `DurableActuator.Actuator.ReconcileClaimTakeover` | crates/btc-actuator/src/store.rs:1870-1923 | Equals the claim takeover step. |
| `DurableActuator.Actuator.OperationBinding` | crates/btc-actuator/src/store.rs:680-702 | Equals the binding step; keeps the run invariant. |
| `DurableActuator.Actuator.BeginPortCall` | crates/btc-actuator/src/store.rs:708-751 | Equals the reservation or replay step; the answer is the outcome the reserved row holds. |
| `DurableActuator.Actuator.CommitOutcome` | crates/btc-actuator/src/store.rs:757-814 | Equals the outcome step; on success the row holds the presented outcome. |
| `DurableActuator.Actuator.Commit` | crates/btc-actuator/src/store.rs:2016-2131 | Commits a working copy exactly if the audit passes, else changes nothing. |
| `DurableActuator.IntendSend` | crates/btc-actuator/src/store.rs:907-957 | The first broadcast transaction on a working copy: from sound tables it ends in sound tables that only moved forward under the held lease, with the effect chosen for its route and leg and exactly one more durable attempt of it alone, unless it is final. |
| `DurableActuator.Acquire` | crates/btc-actuator/src/store.rs:558-619 | Changes clock and lease only; a live lease of this owner keeps its epoch, any other acquisition takes the next one, and nobody else's live lease is taken; sound tables stay sound and move forward. |
| `DurableActuator.Renew` | crates/btc-actuator/src/store.rs:622-652 | Succeeds only for the live holder of that epoch and changes nothing but clock and expiry; sound tables stay sound and move forward. |
| `DurableActuator.Prepare` | crates/btc-actuator/src/store.rs:828-895 | The effect holds exactly this transaction under this scope; a row that was there is kept, a new one is an untouched generation zero at the initial fee; sound tables stay sound. |
| `DurableActuator.IntendFunding` | crates/btc-actuator/src/store.rs:1321-1362 | From sound tables: exactly one more durable attempt of that funding row alone, unless it is final, and nothing unsound. |
| `DurableActuator.Reserve` | crates/btc-actuator/src/store.rs:708-751 | Only the clock and the row of this call change; an existing row must be of this request and locator and is kept; sound tables stay sound. |
| `DurableActuator.Replace` | crates/btc-actuator/src/store.rs:1072-1144 | One more generation of a transaction seen in the mempool: a strictly higher fee within the caps, every earlier attempt kept, the choice following the new txid, no other effect touched; sound tables stay sound. |
| `DurableActuator.TakeOver` | crates/btc-actuator/src/store.rs:1205-1242 | Nothing changes but the clock and that one operation, which keeps transaction, generation, fee and counters under the presented scope; if the row is the one read, its scope differs in fence, expiry and digest only, its fence rises, and sound tables stay sound. |
| `DurableActuator.BindSession` | crates/btc-actuator/src/store.rs:3625-3690 | Store and effect end bound to this participant, session, role and authority at the scope's fence; an existing transcript is kept as it is, no other row changes, and sound tables stay sound. |
| `DurableActuator.Settle` | crates/btc-actuator/src/store.rs:765-812 | Only the clock and the row of this call change; the row ends holding the presented outcome, an earlier commitment is kept, and sound tables stay sound. |
| `FeeReplacement.ValidateReplacement` | crates/btc-actuator/src/model.rs:1401-1460 | The checking loops accept exactly the replacements that keep version, lock time, inputs, scripts and non-change outputs, lower the change, and stay within both caps and 64-bit arithmetic; the result is the new fee. |
| `FeeReplacement.ReplacementConserves` | crates/btc-actuator/src/model.rs:1401-1460 | An accepted replacement moves satoshis from change to fee and nowhere else, and raises the fee. |
| `FeeReplacement.LineageFacts` | crates/btc-actuator/src/model.rs:1360-1460 | For every generation of any chain of replacements: conservation, agreement with generation zero, and a fee at least one satoshi per generation higher and within the caps. |
| `FeeReplacement.LineageBounded` | crates/btc-actuator/src/model.rs:1401-1460 | A chain is no longer than the fee headroom, and of length one without a change output. |
| `FeeReplacement.RateOfGenerationZeroUnchecked` | crates/btc-actuator/src/model.rs:1360-1399 | Whatever the commitment function, the authorization grants a scope under which a transaction is admitted although its rate exceeds the cap. |
| `ActuationScope.TakeoverTest` | crates/btc-actuator/src/store.rs:3575-3588 | The byte-range test on two encoded scopes holds if and only if the scopes agree on every field other than fence, expiry and digest. |
| `ActuationScope.DecodeCanonical` | crates/btc-actuator/src/model.rs:407-528 | Decoding an encoded scope gives it back if and only if it is well-formed and carries its own digest. |
| `ActuationScope.DecodeAccepts` | crates/btc-actuator/src/model.rs:407-528 | Accepted byte strings are exactly the encodings of well-formed authentic scopes, and re-encode to themselves, zero padding included. |
| `ActuationScope.ParseCanonical` | crates/btc-actuator/src/model.rs:554-611 | The field parser inverts the 554-byte encoding of any scope. |
| `ActuationScope.ParseInverts` | crates/btc-actuator/src/model.rs:407-528 | Whatever the field parser accepts re-encodes to the same bytes. |
| `ActuationScope.CanonicalLength` | crates/btc-actuator/src/model.rs:554-611 | An encoded scope has 554 bytes, whatever options are absent. |
| `ActuationScope.AuthorizedDecodes` | crates/btc-actuator/src/model.rs:193-282 | Every minted scope is well-formed, within its deployment's fee rate, and survives its own encoding. |
| `ActuationScope.MintedDigestsDiffer` | crates/btc-actuator/src/model.rs:193-282 | Minted scopes whose commitments do not collide have equal digests if and only if they are equal. |
| `ActuationScope.CommittedBytesAreInjective` | crates/btc-actuator/src/model.rs:554-611 | The bytes a scope digest commits to determine every other field. |
| `ScopeDecoder.FromCanonicalBytes` | crates/btc-actuator/src/model.rs:407-528 | The moving-offset decoder computes the decoding function on every input. |
| `ScopeDecoder.Decoder.Take` | crates/btc-actuator/src/model.rs:624-635 | The next bytes and the moved offset, or a refusal that moves nothing. |
| `PortCallOutcome.DecodeCanonical` | crates/btc-actuator/src/model.rs:894-973 | Decoding inverts encoding if and only if every commitment in the outcome is nonzero. |
| `PortCallOutcome.DecodeInverts` | crates/btc-actuator/src/model.rs:926-973 | Whatever the tag match accepts re-encodes to the same 66 bytes. |
| `Creation.RestartReachesReady` | crates/btc-actuator/src/store.rs:413-555 | After any sequence of creations, resumptions and openings crashed between any two writes, one undisturbed call (creation without a lock, resumption with one) reaches the same empty authority, which then opens. |
| `Creation.AttemptAdvances` | crates/btc-actuator/src/store.rs:295-403 | Every attempt moves a blank or interrupted disk along the creation path and leaves any other disk alone. |
| `Creation.OpensOnlyFinished` | crates/btc-actuator/src/store.rs:449-487 | Opening succeeds if and only if lock, schema version, write-ahead log and audit are all in place, and yields the stored tables. |
| `Creation.ResumesOnlyInterrupted` | crates/btc-actuator/src/store.rs:496-555 | Resumption succeeds if and only if the disk is what a crash of creation leaves; otherwise it changes nothing. |
| `Creation.StateIsNeverOverwritten` | crates/btc-actuator/src/store.rs:2539-2558 | A store with any economic row survives every sequence of creations and resumptions unchanged. |
| `Creation.AuthorityFiles.CreateStore` | crates/btc-actuator/src/store.rs:415-446 | The write-by-write creation equals its specification for every crash point. |
| `Creation.AuthorityFiles.ResumeStore` | crates/btc-actuator/src/store.rs:496-555 | The write-by-write resumption equals its specification for every crash point. |
| `ManifestCodec.ManifestRoundTrip` | crates/deployment-registry/src/codec.rs:18-119 | Decoding an encoded manifest gives it back if and only if its lists are within the decoder's bounds, over all chain and deployment kinds. |
| `ManifestCodec.ManifestInverse` | crates/deployment-registry/src/codec.rs:61-119 | Whatever the decoder accepts is the encoding of what it returns, within bounds. |
| `ManifestCodec.DecodeAccepts` | crates/deployment-registry/src/types.rs:533-549 | The strict decoder accepts bytes as a manifest if and only if they are its canonical bytes and it is within bounds: the re-encoding test refuses nothing more. |
| `ManifestCodec.DecodeInjective` | crates/deployment-registry/src/types.rs:539-549 | One manifest has one accepted form. |
| `ManifestCodec.DomRoundTrip` | crates/deployment-registry/src/codec.rs:121-159 | DOM facts survive their encoding in front of any bytes. |
| `ManifestCodec.KindRoundTrip` | crates/deployment-registry/src/codec.rs:161-202 | All four chain kinds survive their encoding in front of any bytes. |
| `ManifestCodec.DeploymentRoundTrip` | crates/deployment-registry/src/codec.rs:213-259 | All four deployment kinds survive their encoding, for challenges within the bound. |
| `ManifestCodec.ChainsRoundTrip` | crates/deployment-registry/src/codec.rs:28-34 | Chain lists within the bounds survive their encoding. |
| `ManifestCodec.AssetsRoundTrip` | crates/deployment-registry/src/codec.rs:35-54 | Asset lists survive their encoding. |
| `ManifestReader.Reader.Bytes` | crates/deployment-registry/src/codec.rs:451-462 | Takes the next bytes and moves the position, or refuses and moves nothing. |
| `ManifestReader.Reader.Manifest` | crates/deployment-registry/src/codec.rs:61-119 | The position-moving decoder with its loops computes the decoding function on every input. |
| `ManifestReader.Reader.Chain` | crates/deployment-registry/src/codec.rs:261-384 | One chain read from the position equals the chain parser. |
| `ManifestWriter.Writer.Manifest` | crates/deployment-registry/src/codec.rs:18-58 | The buffer-appending encoder with its loops computes the encoding function, refusals included. |
| `ManifestWriter.Writer.Chain` | crates/deployment-registry/src/codec.rs:161-259 | One chain appended to the buffer is the chain's encoding; refused exactly when a count does not fit. |
| `SignedRegistry.SignedCodec` | crates/deployment-registry/src/signed.rs:207-271 | Envelope bytes decode to an envelope if and only if they are its canonical bytes. |
| `SignedRegistry.AuthorityCodec` | crates/deployment-registry/src/signed.rs:107-159 | Authority-set bytes decode to a set if and only if they are its canonical bytes. |
| `SignedRegistry.NewAuthoritySet` | crates/deployment-registry/src/signed.rs:66-84 | The loop accepts exactly the bounded sets of distinct nonzero keys with a threshold between one and their number. |
| `SignedRegistry.ValidateShape` | crates/deployment-registry/src/signed.rs:318-334 | The loop over neighbours accepts exactly the bounded lists of nonzero signatures with strictly increasing signers. |
| `SignedRegistry.CheckSignatures` | crates/deployment-registry/src/signed.rs:303-310 | Accepts exactly the lists in which every signer exists and every signature verifies. |
| `SignedRegistry.ThresholdSigned` | crates/deployment-registry/src/signed.rs:290-315 | An accepted envelope holds signatures of at least `threshold` pairwise distinct keys of the set over the digest of its canonical manifest, for the expected network. |
| `RegistryStore.RegistryIsMonotonic` | crates/deployment-registry/src/store.rs:171-297 | Over any installations on a fresh store: the current row is the history row of the highest epoch, no epoch has two digests, no row is lost, the current epoch never falls. |
| `RegistryStore.PinnedForever` | crates/deployment-registry/src/store.rs:340-391 | A filed manifest stays loadable by its digest with the same result after any further installations, and was signed by at least the threshold of distinct keys. |
| `RegistryStore.AcceptedIsFiled` | crates/deployment-registry/src/store.rs:171-297 | Every accepted installation, new or already current, is filed under its digest with that very manifest. |
| `RegistryStore.AcceptedIsPinned` | crates/deployment-registry/src/store.rs:171-391 | In every run of installations, whatever is installed before and after, an accepted request stays loadable by its digest as the very manifest it was accepted with; a zero digest or network is refused by name. |
| `RegistryStore.InstallKeeps` | crates/deployment-registry/src/store.rs:171-297 | One installation keeps the store sound, loses nothing and never lowers the epoch, for manifests without digest collisions. |
| `RegistryStore.WriteKeeps` | crates/deployment-registry/src/store.rs:257-292 | Writing a newer authentic row keeps the store sound if and only if its digest is not yet filed. |
| `RegistryStore.CurrentLoads` | crates/deployment-registry/src/store.rs:300-338 | The current registry loads if and only if the policy's minimum epoch and validity window admit it, and then as the manifest installed. |
| `RegistryStore.Registry.AuthenticateHistory` | crates/deployment-registry/src/store.rs:609-664 | The loop accepts exactly the sound histories within the row bound and yields the highest epoch with its digest. |
| `RegistryStore.Registry.InstallRegistry` | crates/deployment-registry/src/store.rs:171-297 | Equals the installation step, refusals included. |
| `DependencyCycles.Cycles` | scripts/check-production-readiness-manifest.py:72-98 | Terminates on every finite graph, reports only closed paths of dependency edges that pass no node twice, reports nothing if and only if the graph restricted to known nodes is acyclic, reports each list exactly as often as its closing dependency is listed, and never one cycle under two rotations. If no dependency on a cycle is listed twice, every cycle is reported at most once; if one is, it is reported more than once whenever its target is searched first. |
| `DependencyCycles.OnceIfListedOnce` | scripts/check-production-readiness-manifest.py:72-98 | If no dependency that lies on a cycle is listed twice, the reports are pairwise distinct up to rotation. |
| `DependencyCycles.TwiceIfListedTwice` | scripts/check-production-readiness-manifest.py:72-98 | A closing dependency listed more than once makes some cycle be reported more than once. |
| `DependencyCycles.RotationIsSame` | scripts/check-production-readiness-manifest.py:79-93 | Two reports that start at their earliest discovered node and are rotations of one another are equal. |
| `DependencyCycles.ReportedTwice` | scripts/check-production-readiness-manifest.py:72-98 | A node that lists itself twice has its cycle reported twice, against the comment that each cycle is reported once. |
| `DependencyCycles.Search.Visit` | scripts/check-production-readiness-manifest.py:79-93 | A visit restores the stack, keeps every colour, finishes its node last if it was new, and adds exactly the loop of a grey node, nothing for a black one, and for a white one only loops closed by newly visited nodes. |
| `DependencyCycles.TopologicalIsAcyclic` | scripts/check-production-readiness-manifest.py:72-98 | A dependency-ordered list of all nodes excludes every closed path. |
| `TestReachability.WholeTestOnlyPaths` | scripts/guard_layer_policy.py:1067-1115 | Terminates and returns exactly the files reachable from a test origin and not reachable from a product root along non-test declarations. |
| `TestReachability.Closure` | scripts/guard_layer_policy.py:1094-1113 | The worklist returns exactly the files reachable from its starting set. |
| `TestReachability.ProductWins` | scripts/guard_layer_policy.py:1086-1101 | A standard root, an undeclared file that is no test target, and whatever either pulls in by a product declaration count as product. |
| `SourceDigest.StreamIffSameMap` | contracts/scripts/release_manifest.py:138-152 | Two accepted file lists feed the hash the same bytes if and only if they are the same path-to-content map. |
| `SourceDigest.StreamProduced` | contracts/scripts/release_manifest.py:138-152 | A stream is produced if and only if no path repeats and every length fits its field. |
| `SourceDigest.DigestFiles` | contracts/scripts/release_manifest.py:138-152 | The loop over sorted files feeds exactly the specified stream. |
| `Rlp.ListRoundTrip` | contracts/scripts/release_manifest.py:551-565 | Reading an encoded list gives it back, for byte strings and payloads below 2^64 bytes. |
| `Rlp.ListInjective` | contracts/scripts/release_manifest.py:560-565 | Distinct lists have distinct encodings. |
| `Rlp.CreatePreimageInjective` | contracts/scripts/release_manifest.py:568-571 | For all senders and all 64-bit nonces, two CREATE preimages are equal if and only if sender and nonce are. |
| `Rlp.CreateItemsInjective` | contracts/scripts/release_manifest.py:568-571 | The same for nonces of any size whose list can be framed. |

## Left out

- SQLite, pragmas, schema text and column checks: replaced by atomic map updates, a commit gate and rollback.
- Files: owner, mode, inode, sidecar and fsync checks; only the abstract lock and database states of creation remain.
- Row timestamps other than those the audit reads (transcripts and journal rows).
- The Bitcoin node client, cookies and JSON (`crates/btc-actuator/src/rpc.rs`): any answer is possible.
- Signing, adaptor signatures and extraction: the vault and the aggregator answer anything; only what the store does with the answer is modelled.
- The claim participant's nonce vault and its own database.
- Transaction parsing: an exact transaction carries its parsed form, bytes and derived identifiers as given facts.
- Progress: nothing says that a takeover or replacement eventually succeeds; some the audit always refuses.
- The manifest's cross-field validation (`crates/deployment-registry/src/types.rs`): an arbitrary predicate with an error.
- The envelope and authority-set codecs are modelled on values; their moving reader is the one of `ManifestReader` and is not repeated.
- Overflow of the reader's position, which no byte string in memory can cause.
- Registry file creation, schema migration and `current_epoch`.
- `crates/deployment-registry/src/contract_release.rs`, `crates/chain-profile`, `crates/counterparty-api` and the remaining scripts: single checks, wrappers, text gates and input handling.
- RegistryStore.PinnedForever: excludes the all-zero digest and network, which `load_pinned` refuses by name.
- Rlp.CreatePreimageInjective: covers 64-bit nonces; `Rlp.CreateItemsInjective` covers longer ones that can be framed.
- Rlp.ListInjective: covers payloads below 2^64 bytes, the longest a length prefix can announce.
