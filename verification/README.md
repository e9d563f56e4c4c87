# A verified model of the self-hosted CI control plane

The control plane runs one ephemeral CI job per approved pull request, and fails closed. This project models its
durable state machines in Dafny and proves what they promise under crashes, retries and racing callers.
`dafny verify dfyconfig.toml` checks all of it.

| files | what they model |
|---|---|
| `Basics`, `Decimal`, `Separated` | results, decimal text, joining texts by a separator |
| `PhaseLog`, `PhaseVerdicts` | the streaming log parser and the verdicts inferred from it |
| `FloatText`, `Utf`, `CanonicalJson`, `CanonicalMeaning`, `CanonicalTokens` | RFC 8785 sections 3.2.2 and 3.2.3 over I-JSON (RFC 7493 section 2): printer, reader, member order, domain separation, and the text as tokens |
| `ManifestChain` | the hash-linked key-manifest chain and the key-state side of attestation verification |
| `GateTables`, `GateRuns`, `GateVerdicts`, `GateStore` | the single-winner gate: transactions, what every run keeps, what was reported for every verdict, and the store updated in place |
| `Ledger`, `Garm`, `BrokerSteps`, `BrokerRuns`, `BrokerAdmission`, `BrokerRecovery`, `BrokerOutcomes`, `BrokerCoherence`, `AllocationBroker` | the allocation ledger and the broker over two stores that fail independently |
| `GarmWindow` | the window inside one driver call |
| `Coordinator`, `HostedFallback` | one outbound dispatch and its hosted fallback |
| `PilotLog`, `PilotCycle`, `PilotSteps`, `PilotAssignments`, `PilotRuns`, `PilotWitnesses`, `PilotWorker` | the durable pilot worker: one cycle as a function of the answers, what every step and every run keeps, two runs worth knowing, and the worker itself, in place |
| `PilotProtocol`, `PilotConduct`, `PilotConvergence`, `PilotWatching`, `PilotService`, `PilotPromises` | the protocol of a cycle, that the worker keeps to it, and what it promises |
| `Approvals`, `AutoDispatch` | the approval store and the planner that feeds it |
| `Discard` | publication of discarded assignments |
| `Canary` | the six-claim canary budget |

Conventions. Times are integers. A SQL transaction computes the new tables or leaves the old ones. A digest is the
value it is taken of, or, where its text matters, hexadecimal text; signatures are a fact about an envelope. State that
the program updates in place lives in classes whose methods are tied to functions of the old state, or, for the
publisher and the canary, to an invariant over the durable state. Whatever the surroundings answer is arbitrary: an
input (coordinator), a script of answers (pilot worker, which keeps a trace of every call, write and answer of a cycle), or `*` (publisher, canary); the process may end before or
after every write and call of the last three. The broker is a step machine: each ledger transaction and each driver
call is one atomic step, any number of calls interleave, any may stop between two steps, and the classes in
`AllocationBroker` are proved to do what the machine does when one call runs alone.

Hypotheses that the theorems carry, stated where they are used:

- `BrokerCoherence`: a replayed `reserve` does not re-create the scale set of a row that is already bound, and nothing
  else creates, renames or removes allocation-named scale sets. The admission and naming theorems need neither.
- `PilotRuns`: one worker process. `DispatchedOnce` assumes that a supersession verdict, once given, stands;
  `DispatchedAgain` says what happens otherwise.
- `HostedFallback`: the broker's answers are true of its own run.
- `AutoDispatch`: the resolver reports the head that was listed, and approvals are only made by the dispatcher.
- `Discard`: a created Check Run is visible to the next lookup, and a scope is about one head.
- `PhaseVerdicts`: a line is logged for each phase that finished, where the converse is claimed.

Where the code departs from what one might expect of it:

- `outbound_local_dispatch` raises without any recovery when the reserve reply is not exact, crosses the reservation, or
  cannot be recorded (coordinator.py:234-244 lies outside the handler): `Coordinator.RaisedWithoutRecovery` is the exact
  condition, `InexactReplyIsNotRecovered` an input.
- When the local package is invalid while the record says `dispatching`, the handler names a variable that was never
  set (coordinator.py:345-346) and raises before writing its note; the allocation has been recovered by then.
  `Coordinator.FinalNoteWritten` says exactly when which note is written, `RecoveredWithoutNote` is an input.
- A revocation names only the pull request (pr_autodispatch.py:107-120), so it also takes an approval of the current
  head, which is then settled and never approved again: `AutoDispatch.RevocationTakesTheCurrentHead`,
  `ListedApprovalEndsIff` for the exact condition, and `CurrentHeadIsLost` for a run.
- `WorkerState.terminal` has no guard on the row's state (outbound_worker.py:320-325): a delivery that raises a
  contained error turns a completing request into a failed one, and a repeated one a delivered request. Exactly when:
  `PilotRuns.CompletingEnds` and `DoneEnds`; a run: `PilotWitnesses.CompletedThenFailed`.
- Reporting a discard over a `dispatching` record (outbound_worker.py:1040-1055) hides that a dispatch was made, so a
  request whose verdict is withdrawn is dispatched again: `PilotLog.DiscardReopensDispatch` names the records,
  `PilotRuns.DispatchedAgain` the condition, `PilotWitnesses.DispatchedTwice` a run.

## Model

| member | source | states |
|---|---|---|
| `PhaseLog.MatchFrontExact` | github_automation/pilot_checks.py:48 | The marker pattern matches exactly the texts that begin with the marker of one well-formed phase name, and it names that phase. |
| `PhaseLog.MarkersDoNotOverlap` | github_automation/pilot_checks.py:48 | Two markers at different places of a log never share a character. |
| `PhaseLog.ChunkStep` | github_automation/pilot_checks.py:84-90 | Scanning the kept 64-character tail together with the next chunk adds exactly the phases that scanning the whole log so far would add. |
| `PhaseLog.ParsePhaseEvidence` | github_automation/pilot_checks.py:68-91 | However the log was cut, the answer depends on the joined log only: an error exactly above the size bound, otherwise the phases of the whole log. |
| `PhaseLog.EvidenceIsFirstAppearances` | github_automation/pilot_checks.py:68-91 | Evidence lists the reviewed phases the log names, without repetition, in the order in which they first appear. |
| `PhaseVerdicts.InferVerdicts` | github_automation/pilot_checks.py:94-164 | Unreviewed or unknown phases are refused; otherwise every published phase gets the verdict the job conclusion and the evidence imply. |
| `PhaseVerdicts.VerdictSoundness` | github_automation/pilot_checks.py:94-164 | For every run of a stop-on-first-failure pipeline, a published success means the phase passed, at most one phase is alarming and its verdict is what the conclusion calls for, and when every finished phase was logged success is published exactly for the phases that passed and the alarm for the one that stopped. |
| `PhaseVerdicts.UnreportedPhaseHidesAPass` | github_automation/pilot_checks.py:94-164 | A phase that passed but whose line was lost is not published as a success: the converse needs the logging hypothesis. |
| `FloatText.CanonicalFloatDenotes` | github_automation/crypto.py:167-192 | The printed number reads back as exactly the decimal that the digits and exponent of the shortest representation denote, with its sign; only non-finite values are refused. |
| `FloatText.RenderScientificDenotes` | github_automation/crypto.py:175-189 | In each of the four layouts (leading zeros, trailing zeros, inner point, exponent form) the text denotes the same decimal, for any digits and any exponent. |
| `FloatText.RenderDenotes` | github_automation/crypto.py:173-191 | The branch between plain and exponent form, on any representation, never changes what is denoted. |
| `FloatText.PlainRangeIsByExponent` | github_automation/crypto.py:179 | Being at least 1e-6 and below 1e21 is the same as having a decimal exponent from -6 to 20. |
| `Utf.ByteOrderIsUnitOrder` | github_automation/crypto.py:160 | Comparing the big-endian UTF-16 bytes of two texts orders them as comparing their code units does. |
| `Utf.Utf8Injective` | github_automation/crypto.py:125-133 | UTF-8 encoding is injective on texts. |
| `CanonicalJson.OrderedByCodeUnits` | github_automation/crypto.py:154-163 | The printed members of an object ascend strictly by UTF-16 code units, whatever order they came in. |
| `CanonicalJson.ReadPrint` | github_automation/crypto.py:136-164 | A reader of the printed text, with anything that may follow it, gives back the value with its members sorted. |
| `CanonicalMeaning.SameMeaningSameText` | github_automation/crypto.py:136-164 | Values that differ only in member order, at any depth, print the same text. |
| `CanonicalMeaning.NormalKeepsMeaning` | github_automation/crypto.py:154-163 | Sorting members at every depth keeps the value's meaning. |
| `CanonicalMeaning.ParsesBack` | github_automation/crypto.py:125-164 | Every canonical text of a float-free value parses back to a value of the same meaning. |
| `CanonicalMeaning.CanonicalTextDecides` | github_automation/crypto.py:125-164 | Two float-free I-JSON values have the same canonical text if and only if they are equal up to member order. |
| `CanonicalMeaning.DomainSeparatedInjective` | github_automation/crypto.py:200-207 | From the signed bytes both the NUL-free domain and the payload's meaning can be told. |
| `CanonicalTokens.FloatIsNumeric` | github_automation/crypto.py:144-192 | The printed text of a float is one number, worth exactly the signed decimal its representation denotes. |
| `CanonicalTokens.LexPrint` | github_automation/crypto.py:136-164 | Whatever I-JSON value is printed, floats included, its text splits by the grammar of JSON into exactly the value's tokens at every depth: marks, words, strings, members in canonical order, and each number as its decimal. |
| `CanonicalTokens.CanonicalTextDenotes` | github_automation/crypto.py:125-164 | The same of a whole canonical text. |
| `ManifestChain.CheckKeyTransition` | github_automation/crypto.py:423-440 | The two passes over the old and the new keys find nothing exactly when every old key persists, keeps its metadata and grows no younger and every new key enters active; a refusal is shown by a key, and a new key is complained of only when all old ones are in order. |
| `ManifestChain.AuthenticateLink` | github_automation/crypto.py:333-420 | One envelope is accepted exactly when it verifies, is well formed and follows the previous manifest by generation, digest, time and key states. |
| `ManifestChain.AuthenticateChain` | github_automation/crypto.py:333-379 | A chain is accepted exactly when every link is, and the persisted generation and digest are respected. |
| `ManifestChain.AcceptedGenerations` | github_automation/crypto.py:333-379 | Generations of an accepted chain run 1, 2, and so on without a gap. |
| `ManifestChain.KeysAge` | github_automation/crypto.py:423-440 | Between any two manifests of an accepted chain a key persists, keeps its metadata and only moves active, retiring, revoked; time never runs back. |
| `ManifestChain.KeysEnterActive` | github_automation/crypto.py:423-440 | Every key of an accepted chain has a first manifest, before which it is unknown and in which it is active unless that is the first of all. |
| `ManifestChain.SharedHistory` | github_automation/crypto.py:333-379 | Two accepted chains that agree on the digest at one generation agree on every manifest up to it. |
| `ManifestChain.PersistedFloorExtends` | github_automation/crypto.py:333-379 | A chain accepted against a persisted generation and digest extends the history that was persisted. |
| `ManifestChain.RetirementIsFound` | github_automation/crypto.py:504-512 | A key that was active at issuance and no longer is has a first manifest in which it left the active state: the search cannot fail. |
| `ManifestChain.FindRetirement` | github_automation/crypto.py:504-512 | The search returns that manifest and no other. |
| `ManifestChain.VerifyAttestation` | github_automation/crypto.py:452-512 | The key-state part of attestation verification succeeds exactly on acceptable attestations, before and after the key's retirement. |
| `GateTables.Latest` | github_automation/gatestore.py:287-290 | The newest generation of a key, when the key has any. |
| `GateRuns.OutboxKeyInjective` | github_automation/gatestore.py:851-854 | The outbox key determines logical key, generation, winner and digest, although logical keys may contain colons. |
| `GateRuns.RunKeepsInv` | github_automation/gatestore.py:244-708 | After every run, with a rollback at any fault point: generations are contiguous, results only on decided gates, every admission belongs to a gate and ran its tested merge, a local winner was admitted, and the outbox holds exactly the terminal gates' publications. |
| `GateRuns.RunEvolves` | github_automation/gatestore.py:244-708 | Between any two points of a run: winner, result and digest are write-once, admissions and nonce bindings are permanent, head epochs and lease epochs only grow, an epoch keeps its owner, delivered stays delivered, and superseded generations are frozen. |
| `GateRuns.TerminalIffPublishedOnce` | github_automation/gatestore.py:781-848 | A generation is terminal exactly when one outbox row publishes it, otherwise none does; the row agrees with the gate on winner, result, digest and check run. |
| `GateRuns.OutboxInsertNeverCollides` | github_automation/gatestore.py:822-846 | The insert of a publication never meets an existing primary key. |
| `GateRuns.LocalWinnerWasAdmitted` | github_automation/gatestore.py:427-559 | For every local winner there is a step of the run that admitted it while nobody had won, for the gate's own tested merge. |
| `GateRuns.NewAdmission` | github_automation/gatestore.py:427-532 | Whatever operation adds an admission finds an undecided gate of the same tested merge. |
| `GateRuns.EpochNamesOneOwner` | github_automation/gatestore.py:271-361 | Key, generation and lease epoch name one owner for the whole run. |
| `GateRuns.StaleLeaseChangesNothing` | github_automation/gatestore.py:732-759 | A guarded call whose lease is not the current live one leaves the whole store as it was. |
| `GateRuns.TakenOverLeaseIsPowerless` | github_automation/gatestore.py:732-759 | Once a lease has been taken over or its generation superseded, no later call presenting it changes anything, whatever its clock says. |
| `GateRuns.AcquireExisting` | github_automation/gatestore.py:318-341 | Re-acquiring the current tuple is refused to a stranger while the lease lives or the gate is decided; otherwise an owner change or an expired lease costs an epoch and only renewing one's own live lease keeps it. |
| `GateRuns.AcquireNew` | github_automation/gatestore.py:296-317 | Acquiring another tuple opens the next generation, undecided, at epoch 1, and supersedes the last one. |
| `GateVerdicts.ChangesNeedTheLease` | github_automation/gatestore.py:732-759 | A call that takes a lease changes the store only if that lease names the newest generation, its owner, its epoch, and is alive. |
| `GateVerdicts.LocalSuccessIff` | github_automation/gatestore.py:534-559 | A local success is recorded exactly when the lease is held, the attestation is valid and in time, the admission is the gate's own and nothing else decided it; it then records Success with the digest presented, publishes it, and changes nothing else. |
| `GateVerdicts.LocalFailureIff` | github_automation/gatestore.py:561-617 | A local failure is recorded exactly when the lease is held and the reported failure is of the admitted execution and in time; it then records and publishes FunctionalFailure with the digest presented, and nothing else. |
| `GateVerdicts.HostedIff` | github_automation/gatestore.py:642-666 | A hosted verdict is recorded exactly when GitHub was selected, the lease is held and the digest is valid; it is Success exactly when the conclusion is `success`. |
| `GateVerdicts.SelectIff` | github_automation/gatestore.py:619-640 | GitHub is selected exactly by the lease's holder while nobody has won; repeating that changes nothing. |
| `GateVerdicts.AdmitIff` | github_automation/gatestore.py:427-532 | An admission is inserted exactly when the lease is held, the decision is the stored authority's, unused and in time, and nothing was decided; it then binds the nonces and changes nothing else. |
| `GateVerdicts.DecidedByReport` | github_automation/gatestore.py:534-666 | Over every run, a decided gate was decided by one call that held its lease and reported that very result and digest: Success by the local winner from a timely attestation of its own admission, FunctionalFailure from a timely failure of the admitted execution, and with GitHub the winner Success exactly when the conclusion was `success`. |
| `GateVerdicts.GithubWasSelected` | github_automation/gatestore.py:619-640 | Over every run, GitHub has won only where the lease's holder selected it while nobody had. |
| `GateVerdicts.DeliveryWasObserved` | github_automation/gatestore.py:677-697 | A publication becomes delivered only by a call that observed exactly its digest. |
| `GateVerdicts.ObserveIff` | github_automation/gatestore.py:244-269 | Observing a head records it: another commit than before gets the next generation, the same one keeps its own, and nothing else changes. |
| `GateVerdicts.HeartbeatIff` | github_automation/gatestore.py:343-361 | A heartbeat of the lease's holder moves that gate's expiry and nothing else; anyone else's changes nothing. |
| `GateVerdicts.BindIff` | github_automation/gatestore.py:363-425 | A nonce is bound exactly to a gate at its current head while it was unbound; binding it to anything else changes nothing. |
| `GateStore.GateStore.LatestGeneration` | github_automation/gatestore.py:287-290 | The scan returns the newest generation. |
| `GateStore.GateStore.Acquire` | github_automation/gatestore.py:271-341 | The transaction leaves the tables, and gives the answer or error, of the acquire specification. |
| `GateStore.GateStore.OwnedRow` | github_automation/gatestore.py:732-759 | The row is handed out exactly to the current owner at the current epoch of the newest generation while the lease lives. |
| `GateStore.GateStore.Admit` | github_automation/gatestore.py:427-532 | Refuses, repeats or inserts the admission as specified; a fault or a taken id rolls the insert back. |
| `GateStore.GateStore.Complete` | github_automation/gatestore.py:781-848 | Decides, records and queues in one transaction, or fails in a way its callers roll back. |
| `GateStore.GateStore.CompleteLocalSuccess` | github_automation/gatestore.py:534-559 | Only a live lease, a timely attestation and the gate's own admission complete locally, and what is recorded and published is Success with the digest presented; any failure rolls back. |
| `GateStore.GateStore.CompleteLocalFailure` | github_automation/gatestore.py:561-617 | As for success, with failure evidence that matches the admitted execution and is not late; what is recorded and published is FunctionalFailure. |
| `GateStore.GateStore.SelectGithub` | github_automation/gatestore.py:619-640 | Selects GitHub once, idempotently, unless local has won; a fault rolls the selection back. |
| `GateStore.GateStore.CompleteHosted` | github_automation/gatestore.py:642-666 | Completes only after GitHub was selected; what is recorded and published is Success exactly when the conclusion is `success`. |
| `Ledger.MoveRaisesRank` | github_automation/runner_jit.py:915-1154 | Every effective lifecycle action raises the allocation's rank strictly and keeps the row well formed, so no state is re-entered. |
| `Ledger.ReserveKeeps` | github_automation/runner_jit.py:741-787 | A successful reserve leaves the allocation's row holding exactly that reservation; other rows only stay. |
| `Ledger.FinalizeKeeps` | github_automation/runner_jit.py:789-835 | A successful finalize leaves exactly that payload on the row, once, and only over its own reservation. |
| `Ledger.BindKeeps` | github_automation/runner_jit.py:863-896 | A successful bind leaves exactly that scale-set id on the row; it is never replaced. |
| `Ledger.TransitionKeeps` | github_automation/runner_jit.py:915-1154 | A successful transition keeps all rows well formed and only ages them. |
| `BrokerRuns.RunKeeps` | github_automation/runner_jit_broker.py:328-611 | In every interleaving of calls, crashes and outside changes, all rows stay well formed and whatever a call in progress remembers still agrees with its row. |
| `BrokerRuns.RunAges` | github_automation/runner_jit.py:915-1154 | Between any two points of a run rows only age: rank never falls, payload and scale-set id are write-once. |
| `BrokerRuns.AtMostOneAdmission` | github_automation/runner_jit_broker.py:373-474 | An allocation admits at most one job over the whole run. |
| `BrokerRuns.NoAdmissionAfterIssued` | github_automation/runner_jit.py:966-979 | Once the row has left `issued`, no job is admitted. |
| `BrokerRuns.AdmissionMovesTheRow` | github_automation/runner_jit.py:966-979 | An admission takes exactly one row from issued to running with one job, and touches no other. |
| `BrokerRuns.AdmissionIsAuthorised` | github_automation/runner_jit_broker.py:388-474 | The admitted context matches the one payload ever finalized, which projects to the stored reservation, inside the claim window. |
| `BrokerAdmission.AdmissionIsEarned` | github_automation/runner_jit_broker.py:373-474 | Over every run, the call that admits a job took three steps before, in this order: it saw that exact runner claimed on the bound scale set, its live-job proof succeeded, and it left that set disabled. |
| `BrokerAdmission.OnlyAdmissionsRun` | github_automation/runner_jit_broker.py:373-474 | In any world, an event after which an allocation is running, and was not before, is an admission. |
| `BrokerAdmission.RunKeepsNonces` | github_automation/runner_jit.py:741-787 | Over every run, no two allocations share a nonce. |
| `BrokerRuns.StepStaysOnItsName` | github_automation/runner_jit_broker.py:930-1050 | With every driver call one step, no step of a call changes a scale set that does not carry its allocation's name, whatever ids GARM has reused between the steps. |
| `BrokerRuns.MutationsStayOnTheirName` | github_automation/runner_jit_broker.py:930-1050 | The same over every run. |
| `GarmWindow.UndisturbedIsAtomic` | github_automation/runner_jit_broker.py:896-1046 | A driver call with nothing between its look, its command and its second look is the one step of the machine. |
| `GarmWindow.StrayIff` | github_automation/runner_jit_broker.py:943-1046 | A driver call changes another name's scale set exactly when its own set was there at the look and the id carried another name when the command, which knows only the id, ran. |
| `GarmWindow.StrayIsReported` | github_automation/runner_jit_broker.py:974-1031 | While the other set keeps the id, the second look turns such a disable, enable or install into an exception, after it has acted; a deletion has no second look. |
| `GarmWindow.FreshIdsAreSafe` | github_automation/runner_jit_broker.py:1044-1046 | If GARM never hands an id out twice, the window is harmless over any history of its table. |
| `GarmWindow.ReusedIdIsDeleted` | github_automation/runner_jit_broker.py:1044-1046 | If it does, there is an interleaving in which the driver deletes another name's scale set and returns. |
| `BrokerRecovery.RecoverIff` | github_automation/runner_jit_broker.py:550-611 | One undisturbed recover returns exactly when ledger and GARM agree on the scale set and the surroundings have let go; it then leaves the row cleaned, the name absent and everything else as it was. |
| `BrokerRecovery.RecoverTwice` | github_automation/runner_jit_broker.py:550-598 | A second recover returns and changes nothing. |
| `BrokerRecovery.SoloIsARun` | github_automation/runner_jit_broker.py:328-611 | A call that runs alone is a run of the step machine. |
| `BrokerOutcomes.ReserveIff` | github_automation/runner_jit_broker.py:328-347 | One undisturbed reserve returns exactly on a well-formed reservation in its approval window that the ledger can take, whose name and recorded id agree with GARM; the row then holds it, bound to a disabled scale set of its name, and nothing else changed. |
| `BrokerOutcomes.FinalizeIff` | github_automation/runner_jit_broker.py:349-371 | One undisturbed finalize returns exactly for an authentic payload in its claim window over its own reserved row, whose bound scale set exists under its name and is disabled; it then leaves the payload on the row and that set enabled with it as bootstrap, and nothing else changed. |
| `BrokerOutcomes.StartIff` | github_automation/runner_jit_broker.py:373-474 | The job-started hook answers ok exactly when the row is issued, the context is the payload's, the runner is claimed on the bound set and the live job is proved; the set is then disabled and the row running. Otherwise the row is as it was, and the set at most disabled. |
| `BrokerOutcomes.FinishIff` | github_automation/runner_jit_broker.py:476-514 | One undisturbed finish returns exactly when the outcome may be recorded on the row and the scale set can be removed; the row is then cleaned with that outcome, the name absent, and nothing else changed. |
| `BrokerCoherence.FairRunAgrees` | github_automation/runner_jit_broker.py:328-611 | Over every run in which no replayed reserve re-creates a bound row's scale set, ledger and GARM keep agreeing. |
| `BrokerCoherence.RecoveryConverges` | github_automation/runner_jit_broker.py:550-611 | From every state such a run can leave, whatever was interrupted where, one undisturbed recover cleans the allocation and a second changes nothing. |
| `BrokerCoherence.ReplayOnABoundRow` | github_automation/runner_jit_broker.py:328-347 | Why that hypothesis is needed: replaying reserve for a bound row whose set is gone creates it again, and from then on recover works if and only if GARM reused the recorded id. |
| `BrokerCoherence.ReplayGetsStuck` | github_automation/runner_jit_broker.py:328-347 | Such a state is reached from empty stores by reserving, recovering and reserving again, each undisturbed: no later recover returns. |
| `AllocationBroker.AllocationLedger.Transition` | github_automation/runner_jit.py:915-1154 | The branches of the transition, in place, do what the lifecycle action says. |
| `AllocationBroker.AllocationLedger.Finalize` | github_automation/runner_jit.py:789-835 | In place, the finalize transaction. |
| `AllocationBroker.GarmDriver.FindScaleSet` | github_automation/runner_jit_broker.py:930-941 | Finds the one set of that name, reports absence, or fails on duplicates. |
| `AllocationBroker.GarmDriver.EnsureDisabled` | github_automation/runner_jit_broker.py:834-894 | Answers with the set of that name, disabled; creates it when it is not there. |
| `AllocationBroker.AllocationBroker.Reserve` | github_automation/runner_jit_broker.py:328-347 | Leaves the stores its step machine leaves when it runs undisturbed, and raises exactly when that does; returns exactly when the reservation can be taken, with the named set disabled and bound. |
| `AllocationBroker.AllocationBroker.Finalize` | github_automation/runner_jit_broker.py:349-371 | Likewise for finalize: returns exactly when the payload may be installed, with the bound set enabled and carrying it. |
| `AllocationBroker.AllocationBroker.JobStarted` | github_automation/runner_jit_broker.py:373-474 | Likewise for the job-started hook: ok exactly when context, binding, claim and live proof all hold, with the set disabled and the row running; otherwise no job is admitted. |
| `AllocationBroker.AllocationBroker.DeleteExact` | github_automation/runner_jit_broker.py:600-611 | Likewise for exact deletion, which re-proves the name before and after acting on the id. |
| `AllocationBroker.AllocationBroker.Finish` | github_automation/runner_jit_broker.py:476-514 | Likewise for finish, including its detour through recovery: returns exactly when it can clean, with the outcome it was given on the row and the name absent. |
| `AllocationBroker.AllocationBroker.Recover` | github_automation/runner_jit_broker.py:550-598 | Likewise for recover, from the stale record it read first. |
| `Coordinator.SignedPayloadProjects` | github_automation/coordinator.py:290-326 | The signed payload projects to the reservation if and only if GitHub ran the reserved job name. |
| `Coordinator.Dispatcher.Fallback` | github_automation/coordinator.py:212-233 | A hosted package is sent exactly when reserve had no durable effect, or exact recovery proved absence. |
| `Coordinator.ReceiptFacts` | github_automation/coordinator.py:252-282 | A dispatch is made exactly when no run id and no ambiguous dispatch is on record and the intent could be recorded; it is ambiguous exactly when it was made and no valid receipt was recorded. |
| `Coordinator.Dispatcher.Receipt` | github_automation/coordinator.py:252-282 | In place: the effects, run id and ambiguity that the answers call for, the intent written before the dispatch and the receipt after it. |
| `Coordinator.DispatchFacts` | github_automation/coordinator.py:191-351 | For all answers: at most one dispatch of either kind, each local one right after its intent; hosted only with justification; what is finalized was signed; and every exit by exception is justified. |
| `Coordinator.DispatchRests` | github_automation/coordinator.py:252-337 | For all answers, every payload signed or finalized carries the run that was observed before it and the job, attempt, name and commits of the reply, the reservation's identity and terms, and the recorded or freshly opened claim window; it was signed before it was finalized. |
| `Coordinator.LocalIff` | github_automation/coordinator.py:191-351 | The dispatch hands a job back exactly when everything on the way succeeded, its payload was signed and then finalized, and the reply to the finalize was exact. |
| `Coordinator.Dispatcher.OutboundLocalDispatch` | github_automation/coordinator.py:191-351 | The dispatch, step by step, has the effects and the exit that the answers call for, and all of the above; a job is handed back only with its own payload signed and finalized. |
| `Coordinator.FinalNoteWritten` | github_automation/coordinator.py:340-351 | After an accepted allocation was cleaned up, the record says ambiguous, recovered or nothing exactly as the inputs say; nothing is written exactly when there is no record, absence was not proved, or an invalid package met a dispatching record. |
| `Coordinator.RecoveredWithoutNote` | github_automation/coordinator.py:340-351 | An input of that last kind: the allocation is recovered and the record still says dispatching. |
| `Coordinator.RaisedWithoutRecovery` | github_automation/coordinator.py:234-244 | An exit by exception goes without recovery exactly when no reply was accepted and reserve did not say that it half made this allocation. |
| `Coordinator.InexactReplyIsNotRecovered` | github_automation/coordinator.py:234-238 | An input of that kind: an inexact reply, and nothing is recovered. |
| `Coordinator.CleanedUpFacts` | github_automation/coordinator.py:340-351 | Cleaning up adds no dispatch and no finalize, and exactly the note that is due. |
| `HostedFallback.RunSettles` | github_automation/runner_jit_broker.py:550-598 | In every run, a recovery that saw the row cleaned, or has finished with it, is right about that for good. |
| `HostedFallback.FallbackIsExclusive` | github_automation/coordinator.py:220-229 | Once a recover of an allocation has returned, no job is ever admitted on it, whatever is still in flight. |
| `HostedFallback.HostedRunsAlone` | github_automation/coordinator.py:212-233 | From the coordinator to the broker: when a dispatch sent the hosted package, on answers that are true of the broker's run, no local job is admitted on its allocation from then on. |
| `PilotLog.RecordKeeps` | github_automation/outbound_worker.py:284-297 | A progress record over a claimed row keeps the row accounting for its whole history. |
| `PilotLog.DispatchKeeps` | github_automation/outbound_worker.py:1307-1323 | From a row with nothing against it that the source stands by, the recorded intent and then the dispatch are legitimate. |
| `PilotLog.DiscardReopensDispatch` | github_automation/outbound_worker.py:1040-1055 | Of all records over an announced dispatch, exactly those that report a discard without run id or ambiguity flag leave the request dispatchable again, and they are written under a supersession verdict. |
| `PilotLog.SecondDispatchNeedsWithdrawal` | github_automation/outbound_worker.py:1307-1323 | In every legitimate history, between two dispatches the source called the request superseded, a discard was reported, and the source took the verdict back. |
| `PilotLog.LockedForGood` | github_automation/outbound_worker.py:320-349 | A row that failed, completes, is ambiguous, is due for cleanup or has a run id is never dispatched later. |
| `PilotSteps.RequestCancelFacts` | github_automation/outbound_worker.py:683-722 | The cancellation intent and its deadline are on record before the cancel call, and the first poll is timed from the same instant. |
| `PilotSteps.CancelRequestedFacts` | github_automation/outbound_worker.py:834-974 | The deadline stands; a failed poll or an unfinished run enters the timeout phases if and only if the deadline has passed, unless the process dies; a request stays pending only before it, and the run is polled only when a poll is due. |
| `PilotSteps.CancelNotConvergedFacts` | github_automation/outbound_worker.py:745-781 | The timeout phase is on record before its outcome is written and is never left. |
| `PilotSteps.CancelRecoveryFacts` | github_automation/outbound_worker.py:783-832 | An escalated timeout is finished in its phase, and a return leaves the request failed or to be retried. |
| `PilotSteps.MonitorFacts` | github_automation/jit_pilot.py:296-401 | The run is watched by polls and questions only; it is settled with exactly one outcome, at the end, or the monitor returns with the cancellation and its deadline on record. |
| `PilotAssignments.CompleteSupersededFacts` | github_automation/outbound_worker.py:1001-1100 | An obsolete request with a run returns with the cancellation on record; one without is released or delivered; its run id is untouched. |
| `PilotAssignments.TerminalReconcileFacts` | github_automation/outbound_worker.py:1179-1209 | A reconciled request ends failed, and until then the record that rules a dispatch out stands. |
| `PilotAssignments.DispatchFacts` | github_automation/outbound_worker.py:1307-1323 | The dispatch is made exactly on a row with nothing against it: announced, called, receipt recorded, in that order; otherwise nothing is written. |
| `PilotAssignments.FinalizeFacts` | github_automation/outbound_worker.py:1395-1411 | A recorded finalize receipt means no further call; otherwise one call whose receipt is recorded. |
| `PilotAssignments.FailureHandlerFacts` | github_automation/outbound_worker.py:1518-1559 | Once a failure is published, and unless the process dies, the record the handler leaves rules out every later dispatch (a lost receipt is flagged ambiguous); before that the handler changed nothing but what is known about Check Runs. |
| `PilotRuns.RunOnceFacts` | github_automation/outbound_worker.py:401-447 | A cycle keeps the invariant and only extends the history, and a contained failure leaves the request failed. |
| `PilotConvergence.CloseCancelledConduct` | github_automation/outbound_worker.py:920-974 | A cancelled run that has ended: when the call returns, the request is delivered exactly when no Check Run is on record as open, and held back for another cycle otherwise; every step on the way is allowed by the protocol. |
| `PilotConvergence.ContinueConduct` | github_automation/outbound_worker.py:834-974 | Every step of a requested cancellation is allowed by the protocol: polls only when due, another cancel call only while none was accepted and time is left, the timeout exactly from the deadline on, and what is recorded is what was answered. |
| `PilotConvergence.CancelRecoveryConduct` | github_automation/outbound_worker.py:783-832 | An escalated timeout returns with the request failed exactly when its recovery is on record and no Check Run is open. |
| `PilotWatching.MonitorConduct` | github_automation/jit_pilot.py:296-401 | The monitor settles only a run that has ended or whose time is up, with outcome and proved clean-up; it yields only with a cancellation on record, and asks, polls and reads the clock in the order the protocol allows. |
| `PilotWatching.WatchAndDeliverConduct` | github_automation/outbound_worker.py:1411-1514 | When the watch returns after the clean-up was proved, the request is delivered exactly when no Check Run is on record as open, and held back otherwise; without that it is held back; GitHub being out of reach never leaves it as an exception. |
| `PilotWatching.FinalizeConduct` | github_automation/outbound_worker.py:1395-1411 | The allocation is finalized only right after it was signed, which is only right after the source said once more that the request is wanted; only an exact reply is recorded. |
| `PilotService.FailureHandlerConduct` | github_automation/outbound_worker.py:1518-1559 | However an assignment fails, what is done about it is allowed: Check Runs and outcome first, then the retry, the ambiguity flag, or recovery and failure, as the record says. |
| `PilotService.QuarantineConduct` | github_automation/outbound_worker.py:401-447 | A quarantine closes Check Runs, recovers, tells the source and only then fails the row, as expired exactly for a window that has passed, and never for a request that is not the one on record. |
| `PilotService.RunOnceConduct` | github_automation/outbound_worker.py:401-447 | Every step of every cycle is allowed by what was done and answered before it, the row is what these steps made of it, and the cycle ends in an allowed way: no exception the worker must deal with leaves it, and no failure of a confirmed assignment goes unhandled. |
| `PilotPromises.DoneIsEarned` | github_automation/outbound_worker.py:1485-1514 | A cycle records a result or delivers it only when in this very cycle an outcome was recorded, no Check Run is on record as open, and the result was the last thing written. |
| `PilotPromises.SettledIsDelivered` | github_automation/outbound_worker.py:1485-1514 | A cycle in which the clean-up was proved and which returns delivers the request exactly when no Check Run is on record as open and holds it back otherwise; only an allocation found expired ends it failed. |
| `PilotPromises.NothingIsLeftBehind` | github_automation/outbound_worker.py:1179-1209 | A cycle closes a request, with a result or as failed, only when its allocation was proved clean or recovered in this cycle, its recovery is on record, or there was none; only a quarantine may leave one behind. |
| `PilotPromises.ResultsAreEarned` | github_automation/outbound_worker.py:1211-1559 | Over any cycles, answers, crashes and restarts: a request whose result is on record had an outcome recorded, has no open Check Run, and nothing was written about it after its result. |
| `PilotRuns.CompletingEnds` | github_automation/outbound_worker.py:401-434 | Unless the process dies, a completing request ends failed exactly when its delivery raised a contained exception, done exactly when the delivery returned, and completing exactly when it raised anything else. |
| `PilotRuns.DoneEnds` | github_automation/outbound_worker.py:401-434 | Unless the process dies, a delivered request that is polled again ends failed exactly when repeating the delivery raised a contained exception and the request is the one on record; otherwise it stays done. |
| `PilotRuns.ServedRecordsStand` | github_automation/outbound_worker.py:1211-1559 | Over any cycles, answers, crashes and restarts: the history is legitimate (no dispatch after a locking record; cancel calls only after the intent; no dispatch or finalize after it; no cancel, poll or other outcome after a timeout), and recorded run ids and deadlines stand. |
| `PilotRuns.DispatchedOnce` | github_automation/outbound_worker.py:1211-1559 | Over any such run, at most one dispatch, as long as the source takes no verdict back. |
| `PilotRuns.DispatchedAgain` | github_automation/outbound_worker.py:1211-1559 | In general, two dispatches only around a verdict, a discard reported under it, and its withdrawal. |
| `PilotRuns.ServedStaysLocked` | github_automation/outbound_worker.py:1211-1559 | Once a cycle left the request locked, no later cycle dispatches it, whatever the source says. |
| `PilotWitnesses.CompletedThenFailed` | github_automation/outbound_worker.py:320-325 | A run in which a completed request ends failed. |
| `PilotWitnesses.DispatchedTwice` | github_automation/outbound_worker.py:1040-1100 | A run in which the request is dispatched twice: receipt lost, discard reported, verdict withdrawn. |
| `PilotWorker.PilotWorker.DispatchOnce` | github_automation/outbound_worker.py:1307-1323 | In place: the row and history its specification gives; a shut row is left alone, and an open one gets intent, dispatch and receipt in that order, once. |
| `PilotWorker.PilotWorker.ContinueCancelRequested` | github_automation/outbound_worker.py:834-974 | In place: as specified; the deadline stands, and a failed poll or an unfinished run enters the timeout phases if and only if the deadline has passed. |
| `PilotWorker.PilotWorker.Monitor` | github_automation/jit_pilot.py:296-401 | The polling loop ends where its recursive specification does; on return it has settled with one outcome, or the cancellation and its deadline are on record. |
| `PilotWorker.PilotWorker.FailureHandler` | github_automation/outbound_worker.py:1518-1559 | In place: as specified; once the failure is published the record it leaves is locked against a dispatch, and before that only what is known about Check Runs changed. |
| `PilotWorker.PilotWorker.RunOnce` | github_automation/outbound_worker.py:401-447 | In place: one whole cycle as specified, quarantine included; every step is allowed and so is the end; a request is delivered only with its outcome recorded and no Check Run open, exactly then once its run was settled; a contained failure leaves it failed. |
| `PilotWorker.Serve` | github_automation/outbound_worker.py:1211-1559 | The service loop leaves what its cycles are specified to leave: a legitimate history, two dispatches only around a withdrawn verdict, and results only with an outcome on record and no open Check Run. |
| `Approvals.OneActivePerHead` | github_automation/local_approval.py:403-535 | At most one active approval exists per repository, pull request and head. |
| `Approvals.ReconcileKeeps` | github_automation/local_approval.py:424-470 | The first transaction of approve expires at most the stale, non-durable active row, and never a durable claim. |
| `Approvals.NoneActive` | github_automation/local_approval.py:424-470 | After it lets an approval through, the head has no active row. |
| `Approvals.RecoverClaimsSpares` | github_automation/local_approval.py:885-895 | No TTL sweep touches a durable claim. |
| `Approvals.VerdictIff` | github_automation/local_approval.py:424-470 | A repeated approval is recognised while it is good; an approval of something else is refused while the active one is durable, or claimed and in time; otherwise the active one alone expires. |
| `Approvals.SweepsEndOverdueClaims` | github_automation/local_approval.py:885-895 | The two sweeps leave no overdue claim and change nothing else: a claim whose approval expired expires for good, any other goes back to the queue with its place and head. |
| `Approvals.PollKeeps` | github_automation/local_approval.py:604-634 | Expiring or claiming a pending approval keeps the active keys exact and durable claims untouched. |
| `Approvals.LocalApprovalStore.ActiveRow` | github_automation/local_approval.py:426-429 | Finds the head's active approval, or proves there is none. |
| `Approvals.LocalApprovalStore.FirstPending` | github_automation/local_approval.py:610-612 | The oldest pending approval, ties broken by request id. |
| `Approvals.LocalApprovalStore.CheckActive` | github_automation/local_approval.py:424-470 | The first transaction answers for the head's active row, or expires the stale one and lets the approval through. |
| `Approvals.LocalApprovalStore.InsertApproval` | github_automation/local_approval.py:491-521 | The second transaction, on any store: it inserts exactly when id and active key are free; otherwise the active row is the answer if it is for the same target, and the approval is refused if not. |
| `Approvals.SecondInsertYields` | github_automation/local_approval.py:491-521 | Of two approvals of one head that both passed the first transaction, the later insert adds nothing while the other's row is active. |
| `Approvals.LocalApprovalStore.Approve` | github_automation/local_approval.py:403-535 | Undisturbed: a new row appears only if the head had no active one; otherwise the answer is the existing row or a refusal. |
| `Approvals.LocalApprovalStore.Poll` | github_automation/local_approval.py:604-641 | Claims the oldest pending approval still in time, for at most sixty seconds and never past its expiry; exactly the older, late ones expire on the way. |
| `AutoDispatch.Plan` | github_automation/pr_autodispatch.py:59-127 | Revokes exactly the pull requests with a stale active approval and approves exactly the open heads that never had a turn, each in ascending order; a doubled listing is refused. |
| `AutoDispatch.ApprovedAtMostOnce` | github_automation/pr_autodispatch.py:59-127 | Over any sequence of polls, interleaved with the worker and the TTL sweeps, each head is approved at most once. |
| `AutoDispatch.ReplanningIsIdle` | github_automation/pr_autodispatch.py:59-127 | Planning again from what an applied plan left yields no action. |
| `AutoDispatch.RevocationTakesTheCurrentHead` | github_automation/pr_autodispatch.py:105-126 | A head approved next to a stale one loses its approval with it, and no later plan gives it back. |
| `AutoDispatch.ListedApprovalEndsIff` | github_automation/pr_autodispatch.py:105-126 | Applied in full, a plan ends the approval of a listed head exactly when the pull request also has a stale one. |
| `AutoDispatch.CurrentHeadIsLost` | github_automation/pr_autodispatch.py:105-126 | A run that gets there: the revocation of the older head fails and is skipped, the new head is approved, and the next poll revokes both. |
| `Discard.ExternalIdInjective` | github_automation/pilot_checks.py:614-616 | No two phases of any two scopes share an external identity. |
| `Discard.DiscardPublisher.FindByExternalId` | github_automation/pilot_checks.py:327-360 | Finds the phase's own Check Run or proves GitHub has none. |
| `Discard.DiscardPublisher.RecordDiscard` | github_automation/local_approval.py:815-837 | The phase's row takes the Check Run id, once, as created; another id is refused. |
| `Discard.DiscardPublisher.PublishPhase` | github_automation/pilot_checks.py:563-592 | From wherever an earlier attempt stopped, a normal return leaves the phase concluded; no other row and no other phase's Check Run changes, and every new Check Run is the phase's own. |
| `Discard.PublishAll` | github_automation/pilot_checks.py:539-593 | Over any publications, crashes and retries: at most one Check Run per scope and name, and every publication that returned leaves both phases concluded. |
| `Canary.Pigeonhole` | github_automation/canary_worker.py:1220-1224 | Six different claims within a budget of six are the whole budget. |
| `Canary.TerminalUsedOneEach` | github_automation/canary_worker.py:1200-1241 | A terminal matrix used its scope's six claims, one per scenario, all under its own nonce. |
| `Canary.CanaryHost.ConsumeAllocation` | github_automation/canary_worker.py:1200-1241 | A granted claim is appended to the scope's budget, which never exceeds six, and then to the matrix: wherever it stops, the matrix has changed only if the budget has. |
| `Canary.CanaryHost.Initialize` | github_automation/canary_worker.py:1149-1190 | A nonce's matrix is refused exactly when it is another authorization's, is finished, or was left by another boot without waiting for its reboot; resuming changes nothing but the boot. |
| `Canary.CanaryHost.OneScenario` | github_automation/canary_worker.py:1613-1651 | A scenario is appended only after its claim and its start on the host, in the fixed order. |
| `Canary.CanaryHost.RunMatrix` | github_automation/canary_worker.py:1608-1651 | A matrix that returns has completed all six scenarios in order. |
| `Canary.Operate` | github_automation/canary_worker.py:1149-1250 | Over any authorizations, restarts and reboots: at most six starts per scope, completed is always a prefix of the fixed order and was started on the host under its own nonce, and terminal means six claims, one each, own nonce. |

## Left out

- BrokerRuns.StepStaysOnItsName: takes each driver call as one step; what the window inside a call changes is `GarmWindow`.
- BrokerRuns.MutationsStayOnTheirName: likewise.
- One table of scale sets stands for the GARM targets of all repositories.
- Polling loops of the broker (claim observation, drain, cleanup) are one observation that may be retried; their deadlines only decide when a call gives up.
- `admit` of the ledger (direct admission without a reservation), outcome rows and their retention, and `prove_clean` are not modelled.
- `recover_all` is recovery of one allocation after another and is not stated separately.
- GateStore: creation and update timestamps, the stored JSON texts, and the order of pending publications.
- FloatText: which digits Python's shortest representation chooses is foreign; the plain-or-exponent threshold is compared on those digits.
- CanonicalJson: values with floats are outside the injectivity theorem, as 1 and 1.0 print alike; `CanonicalTokens` says what their texts denote. Error texts are not modelled.
- ManifestChain: signature and hash algorithms, base64 and key parsing.
- The in-memory nonce binding store of crypto.py: two dictionaries; the durable nonce bindings are in `GateTables`.
- PhaseLog: log bytes are characters, so the bound counts characters.
- Coordinator: clearing the local fields of the hosted package, one dictionary update.
- PilotWorker: other requests' rows and which request a cycle picks, lease times, texts of reasons, and which exception a dependency raises in which case.
- PilotWorker.PilotWorker.Monitor: the checks on one observation, and the clock that ends polling, are arbitrary answers.
- PilotLog: the cause of an outcome beyond `cancel-not-converged`, and the conclusion a Check Run is closed with.
- PilotCycle: a malformed request that reuses the id of a well-formed one; it is refused without changing the row.
- OutboundWorker, the older worker around `outbound_local_dispatch`.
- Approvals: protocol-package requests, which are re-resolved during `poll`, results, reasons and `complete` of a completed row.
- Approvals.LocalApprovalStore.Approve: its two transactions run with nothing in between; each is stated on its own for any store.
- AutoDispatch: publication and outcome of a blocked head; a block is only remembered.
- Discard: pages of more than one hundred Check Runs, and the text of a verdict.
- Canary: preflight and live measurements, proofs' contents, and that only the reboot scenario asks for a reboot is taken from the driver.
- HTTP clients, App tokens, command lines, file permissions, schema migrations, watchdog, timing and the operator tools.
