# A model of the relayer protocol of the Ethereum - Elrond bridge

A relayer moves batches of token deposits between two chains. It drives two step machines, one per
direction, with one stateful bridge executor each. Every step asks the chains something, perhaps sends a
transaction or gossips a signature, and picks the next step. Any call can fail, and most failures lead
back to the first step. This project models that protocol in Dafny and proves what it keeps over whole
runs of any number of relayers.

## How the model is built

- `Protocol`, `ToEth`, `ToElrond` - the state of an executor, the answers a step may get, the calls it
  makes, and the ten and five steps as functions from state and answers to next step, state and calls.
- `Executor`, `ToEthSteps`, `ToElrondSteps`, `StateMachine` - the same in the source's own imperative form:
  the executor class with its fields, the `Execute` methods with their early returns, the step tables, the
  machine that moves through them. Each method is proved to do what the step function says, with the
  signature store as a shared object.
- `ToEthRuns`, `ToElrondRuns`, `Moves`, `ToEthBounds`, `ToElrondBounds`, `ToEthProgress`, `ToElrondProgress` -
  runs of one machine against arbitrary answers: the evidence in order behind every step and every
  transaction, where a step leads, how long an attempt can take, and that it completes when it is let.
- `EthereumClient`, `ElrondCodec`, `Batches`, `BigEndian` - message hash, quorum, token totals, submission,
  argument encoding, the pending-batch parser, status resolution.
- `SignatureStore`, `ReplayFilter`, `Envelope`, `Gossip`, `Messages`, `Topology` - signed gossip from the
  packet to the stored signature, and leader election.
- `World` - the whole system: relayers, packets, whitelist refreshes, restarts, two chains, time, and relayers
  that behave arbitrarily. `Soundness`, `Ledger`, `Backing`, `Traces`, `Safety` prove its invariants,
  `Theorems` states the results, and `Witness` and
  `WitnessToEth` show runs in which batches go through, in either direction.

A step of a relayer is one event, but each of its reads may show an earlier state of the chains, in program
order: so the chains may move between any two reads of one step, and every read may fail.

## What is assumed

- The Elrond contract keeps one action per argument list and performs it at most once, behind signatures of
  more relayers than there are arbitrary ones. Performing a transfer moves its last batch identifier and last
  nonce to those it reads off the arguments. (The contract state of the integration tests keys proposals by
  the hash of their arguments in the same way.)
- An Ethereum batch with a given identifier has fixed content; executed flags are stable; Ethereum executes
  only behind signatures, over the hash of what it executes, of more relayers than there are arbitrary ones.
- Batch identifiers and deposit nonces are below 2^63. Above, the conversion to a signed 64-bit argument
  gives different values the same bytes (`ArgInt64Collision`). Action identifiers go through the same
  conversion when they are signed or performed; they are taken as exact, that is, below 2^63 too.
- The content of an Ethereum batch includes its tokens as converted: for all relayers and the whole run a
  batch has one conversion. Within one call the mapper is fixed.
- The client hands out a pending batch with one zero status per deposit (`ParsedShape`).
- ABI packing, Keccak-256, SHA-256, the signature schemes and the marshallers are functions that stand as
  parameters. Where a result needs more of them it says so: that hashes do not collide (`CollisionFree`),
  that a scheme accepts its own signatures (`Correct`), that SHA-256 gives at least eight bytes (`LongEnough`).

## Where the code says something else than one might expect

- The quorum is compared with its minimum as `Uint64` and used as `Int64` everywhere else, so only its low 64
  bits count. The check is the intended comparison exactly below 2^63 (`QuorumCheckExact`). Where the low
  64 bits are at least 2^63 it passes with no signature at all, and the submission then slices out of range,
  which ends the process (`QuorumCheckTruncates`, `PanicsExactly`); a step that panics is one the world does
  not complete, and what follows is a restart.
- The gas limit is cut to 64 bits and then taken as signed: the relayer's funds are compared with the fee
  exactly below 2^63, and for limits from there to 2^64 any funds are enough (`FeeExact`, `FeeTruncates`).
- The quorum is read again by step four. A zero quorum, which step three refuses, is not refused there
  (`CarriesNothing`, `StepFourAcceptsZero`).
- Step six fetches the pending batch a second time and does not compare its identifier with the stored one, so
  another batch can decide how many statuses are proposed (`StepSixMixesBatches`, `OneStatusPerDeposit`).
- `UniqueID` concatenates key and payload, so it names both only among keys of one length
  (`UniqueIDExact`, `UniqueIDCollision`). A store that is handed keys of several lengths can lose messages
  (`StoredAreLatestExactly`, `DisplacedByCollision`); in a node all keys are whitelisted 32-byte addresses,
  and it cannot happen (`NodeStoresLatest`).
- A message whose nonce is accepted uses it up even if the antiflood component then drops it.
- Step one of the Ethereum to Elrond half stores the batch before it is validated and before its nonces are
  checked, so the executor may hold a refused batch; only the step it returns to keeps it from being used.

The table below lists the results about the whole system first, then runs of one machine, then the
components, and last the operations of the executor.

## Model

| member | source | states |
|---|---|---|
| `Theorems.DepositsTile` | bridges/ethElrond/bridgeExecutor.go:182-206 | In every reachable world, for any number of relayers and with chains that move between the two reads of step one, the transfers performed on Elrond are Ethereum's batches with consecutive identifiers and their fixed content: read position by position they pay each recipient the deposited amount of the converted token; all their deposit nonces in order form one sequence without gap or repeat; the contract's marks are the last of them |
| `Theorems.NamedActionIsCurrent` | bridges/ethElrond/bridgeExecutor.go:209-222 | While a relayer waits for quorum or performs in the Ethereum to Elrond half, its non-zero action identifier names, on the contract as it is now, the transfer of the batch it stored |
| `Theorems.EthereumReleasesOnlyPending` | clients/ethereum/client.go:224-246 | Whatever Ethereum executes was pending on Elrond: it hashes like a pending batch, so without hash collisions it has exactly that batch's identifier and, deposit by deposit, its recipients, tokens, amounts and nonces |
| `Theorems.PerformedStatusesAreTrue` | bridges/ethElrond/steps/elrondToEth/step06ResolveSetStatus.go:16-44 | Every set-status the contract performed is about a batch that was pending and is executed on Ethereum; one by one it holds Ethereum's answer for that very batch, as far as there are deposits in the pending batch that step six fetched, and rejects the rest; if that was the same batch and it did not change, these are the batch's own deposits |
| `Theorems.StatusOnlyAfterExecutionInWorld` | bridges/ethElrond/steps/elrondToEth/step08SignProposedSetStatus.go:17-56 | In every reachable world: in steps six to ten the stored batch is executed on Ethereum; in seven to ten its statuses tell Ethereum's answer for it, deposit by deposit of the fetched pending batch; in nine and ten the non-zero action identifier names exactly this identifier with these statuses on the contract |
| `Theorems.QuorumIsStable` | clients/ethereum/client.go:348-356 | If the quorum was not raised since step three saw it reached in this attempt, step four is never refused for lack of signatures, whatever was gossiped and whatever the other machine did in between |
| `Theorems.SubmissionIsJustified` | clients/ethereum/client.go:348-376 | A submitted transfer is a batch that was pending on Elrond and carries its recipients, tokens, amounts and nonces deposit by deposit; its lists hash to the stored message hash; it carries pairwise distinct signatures, as many as the quorum (exactly so below 2^63), each of which arrived since the last clear in an authentic, fresh message of a whitelisted key and verified for this hash under a whitelisted address; and the safe can pay every token |
| `Theorems.OneLeaderPerSlot` | bridges/ethElrond/topology/topologyHandler.go:52-78 | No two relayers with the same whitelist send leader-only transactions in one time slot, and the one that does is whitelisted |
| `Theorems.SendersLead` | bridges/ethElrond/topology/topologyHandler.go:52-78 | Every proposal, perform and submitted transfer on the trace was sent by the leader of a slot in which it asked |
| `Safety.RunSound` | bridges/ethElrond/bridgeExecutor.go:108-122 | In every run, whatever the interleaving, the world it ends in keeps the joint invariant of relayers, messages, traces and chains; every world of a run is the end of one |
| `Safety.ChainsSoundKept` | integrationTests/mock/elrondContractStateMock.go:116-130 | Every event keeps the record of the chains: one action per argument list, signed only for supported actions by relayers that follow the protocol, performed at most once, tiled |
| `Safety.RelayersSoundKept` | bridges/ethElrond/bridgeExecutor.go:158-165 | Every event keeps what each relayer relies on: the stored batch and action identifier stay facts on the chains' record, through every error branch and every return to step one |
| `Safety.MessagesSoundKept` | clients/elrond/client.go:290-317 | Every transaction and every broadcast hash that relayers following the protocol ever sent stays supported by the record |
| `Backing.AllBackedKept` | bridges/ethElrond/signaturesHolder.go:25-77 | Every event keeps each relayer's evidence for its step, and between quorum and confirmation the relayer still holds every signature it counted |
| `Traces.TraceSoundKept` | bridges/ethElrond/bridgeExecutor.go:144-146 | Every event keeps the trace sound: leader-only calls come after a positive answer of the election, which is true for its time and whitelist |
| `Ledger.PerformableIsDue` | bridges/ethElrond/bridgeExecutor.go:182-206 | A supported transfer that the contract can still perform is the batch whose turn it is now, even if the chain moved since a relayer read the last identifier |
| `Ledger.TiledExtends` | bridges/ethElrond/bridgeExecutor.go:195-206 | Performing the batch whose turn it is extends the tiling of identifiers and nonces |
| `Ledger.PerformedOnce` | integrationTests/mock/elrondContractStateMock.go:116-130 | An action that can be performed was not performed under any identifier |
| `Ledger.HonestSigner` | clients/ethereum/client.go:515-526 | More signers than arbitrary relayers include one that follows the protocol |
| `ToEthRuns.SubmittedIsWhatWasSigned` | bridges/ethElrond/bridgeExecutor.go:484-505 | In every run, a submission carries the lists and identifier of the batch that was fetched, validated, hashed and broadcast in the same attempt, in this order; this batch and its hash are what the executor stores |
| `ToEthRuns.StatusOnlyAfterExecution` | bridges/ethElrond/bridgeExecutor.go:401-415 | In every run, a status is performed only behind the whole chain of one attempt: fetched, validated, executed, store cleared, statuses read, action named, signed, quorum reported, not yet performed, leader |
| `ToEthRuns.RunHasEvidence` | bridges/ethElrond/steps/elrondToEth/stepsFactory.go:21-67 | In every run, at every step, the calls that step relies on were made in the current attempt in the right order, and batch, hash, statuses and action identifier agree with their answers |
| `ToEthRuns.AdvanceKeepsEvidence` | bridges/ethElrond/steps/elrondToEth/stepsFactory.go:21-67 | Each of the ten steps keeps that evidence, whatever it is answered |
| `ToEthRuns.FromGetPending` | bridges/ethElrond/steps/elrondToEth/step01GetPending.go:17-70 | Step one leaves with a batch that was just fetched, validated and looked up on Ethereum |
| `ToEthRuns.FromSignTransfer` | bridges/ethElrond/steps/elrondToEth/step02SignProposedTransfer.go:16-30 | Step two leaves with the hash of the stored batch stored and broadcast |
| `ToEthRuns.FromWaitForQuorum` | bridges/ethElrond/steps/elrondToEth/step03WaitForQuorumOnTransfer.go:16-35 | Step three goes on only after it counted a quorum of signatures for the stored hash |
| `ToEthRuns.FromPerformTransfer` | bridges/ethElrond/steps/elrondToEth/step04PerformTransfer.go:16-39 | Step four keeps batch, hash and counted quorum, or learns that the transfer is executed |
| `ToEthRuns.FromResolveStatus` | bridges/ethElrond/steps/elrondToEth/step06ResolveSetStatus.go:16-44 | Step six leaves with the store cleared and with Ethereum's last answer resolved against the pending deposits in the stored batch |
| `ToEthRuns.FromSignStatus` | bridges/ethElrond/steps/elrondToEth/step08SignProposedSetStatus.go:17-56 | Step eight goes on only with a non-zero identifier the contract gave for exactly these statuses, signed before or accepted for signing |
| `ToEthRuns.CallsByStep` | bridges/ethElrond/steps/elrondToEth/step04PerformTransfer.go:16-39 | Each step makes calls of its own kinds only: transfers come from step four alone, clears from step six alone |
| `ToEthRuns.BroadcastIsBacked` | bridges/ethElrond/bridgeExecutor.go:465-481 | A signature is broadcast only for the hash of the batch that was fetched and validated in this attempt |
| `ToEthRuns.ProposalIsBacked` | bridges/ethElrond/bridgeExecutor.go:296-310 | A proposed set-status is Ethereum's answer for the executed batch, resolved |
| `ToEthRuns.SigningIsBacked` | bridges/ethElrond/bridgeExecutor.go:318-327 | A signed set-status is the one the contract named for exactly this identifier and these statuses |
| `ToEthRuns.StepSixMixesBatches` | bridges/ethElrond/steps/elrondToEth/step06ResolveSetStatus.go:16-44 | Step six does not compare identifiers: a concrete state and answers in which another batch decides how many statuses the stored one gets |
| `ToEthRuns.StepFourAcceptsZero` | bridges/ethElrond/steps/elrondToEth/step04PerformTransfer.go:16-39 | A zero quorum, which the check of step three refuses, is accepted by step four, which then submits without a signature: a concrete state and answers |
| `ToEthRuns.OneStatusPerDeposit` | clients/elrond/client.go:265-287 | In every run, a proposal holds as many statuses as the larger of answers and fetched deposits: one per fetched deposit exactly if there are no more answers, and then one per stored deposit exactly if both batches have equally many |
| `ToElrondRuns.PerformedActionIsSafe` | bridges/ethElrond/bridgeExecutor.go:401-415 | In every run, a perform transaction uses a non-zero identifier that the contract returned in this attempt for the stored batch, that was signed or accepted for signing, and for which quorum was reported; the batch is the next one and continues the executed deposits |
| `ToElrondRuns.RunHasEvidence` | bridges/ethElrond/steps/ethToElrond/stepsFactory.go:21-52 | In every run, at every step, the calls it relies on were made in the current attempt in order, and batch and action identifier agree with their answers |
| `ToElrondRuns.AdvanceKeepsEvidence` | bridges/ethElrond/steps/ethToElrond/stepsFactory.go:21-52 | Each of the five steps keeps that evidence, whatever it is answered |
| `ToElrondRuns.ProposalIsBacked` | bridges/ethElrond/bridgeExecutor.go:255-269 | A proposed transfer is the fetched, validated next batch whose nonces follow |
| `ToElrondRuns.SigningIsBacked` | bridges/ethElrond/bridgeExecutor.go:318-327 | A signed transfer is the action the contract named for that batch |
| `ToEthBounds.AttemptIsBounded` | bridges/ethElrond/bridgeExecutor.go:513-525 | In every run: each counted wait step is executed at most max + 1 times per attempt and asks its question at most max times, the Ethereum quorum counted apart from step four's reads; and the attempt is no longer than the three maxima, a constant and the visits to the uncounted loops |
| `ToEthBounds.QuorumQuestionsByStep` | clients/ethereum/client.go:515-526 | Step three asks for the quorum once unless it gives up, and no other step asks in its order |
| `ToEthBounds.StagesAdvance` | bridges/ethElrond/steps/elrondToEth/stepsFactory.go:21-67 | A step repeats itself, moves to a later stage or gives up; only waiting and performing stages repeat |
| `ToElrondBounds.AttemptIsBounded` | bridges/ethElrond/bridgeExecutor.go:423-435 | The same for this half: at most max + 1 visits to the quorum wait, at most max questions, and everything else bounded but the two uncounted loops |
| `Moves.ToEthMovesByRecord` | bridges/ethElrond/steps/elrondToEth/stepsFactory.go:21-67 | In every run, the next step is told by the last call of the present one: a failure or a missing last question leads back to step one, an answer that is not there yet repeats the step (step four waits for the confirmation), and a good one leads to the next step of the protocol, or past the signatures if the batch is executed |
| `Moves.ToElrondMovesByRecord` | bridges/ethElrond/steps/ethToElrond/stepsFactory.go:21-52 | The same for the five steps of this half |
| `Moves.ToEthAttemptsAreIndependent` | bridges/ethElrond/steps/elrondToEth/step01GetPending.go:17-70 | After any two runs that are at step one, the same answers lead to the same calls and steps: an attempt owes nothing to what earlier ones left in the executor |
| `Moves.ToElrondAttemptsAreIndependent` | bridges/ethElrond/steps/ethToElrond/step01GetPending.go:17-66 | The same for this half |
| `Moves.NothingSentWhilePaused` | clients/elrond/client.go:265-357 | A proposal, signature or perform goes out only in a step in which the contract said that it is not paused |
| `Moves.NothingSentWithoutBatch` | bridges/ethElrond/bridgeExecutor.go:255-269 | Without a stored batch no step of either half sends a transaction or broadcasts a signature |
| `Moves.StoredBeforeChecked` | bridges/ethElrond/steps/ethToElrond/step01GetPending.go:17-66 | A batch is stored before it is validated, and an action identifier before it is found to be zero |
| `Moves.StoreReadExactly` | clients/ethereum/client.go:300-350 | Step four reads the stored signatures if and only if it leads, a quorum was read, the contract runs and the gas price is known |
| `Moves.ConfirmationIsPolled` | bridges/ethElrond/bridgeExecutor.go:335-342 | Step five asks about the stored batch in at most ten polls, past waits that are cut short, up to the first answer that confirms |
| `Moves.StatusesAreAwaited` | bridges/ethElrond/bridgeExecutor.go:345-366 | Step six goes on if and only if a batch is pending and one of at most ten polls brings statuses before a wait is cut short; those are the ones it resolves |
| `ToEthProgress.ToEthAttemptCompletes` | bridges/ethElrond/steps/elrondToEth/stepsFactory.go:21-67 | Any run that is at step one completes a whole attempt, with the exact path and every transaction that is its own to send: after up to max - 1 unreached quorums, missing proposals and unreached status quorums, any number of turns of the two uncounted loops, for a relayer that leads or not, and from a batch that is already executed |
| `ToEthProgress.AwaitsQuorum` | bridges/ethElrond/steps/elrondToEth/step03WaitForQuorumOnTransfer.go:16-35 | As long as the counter allows, step three repeats itself on every readable, non-zero quorum that is not reached |
| `ToEthProgress.AwaitsExecution` | bridges/ethElrond/steps/elrondToEth/step04PerformTransfer.go:16-39 | Steps four and five take turns until the transfer is executed, submitting whenever the relayer leads, and change nothing |
| `ToEthProgress.AwaitsPerform` | bridges/ethElrond/steps/elrondToEth/step10PerformSetStatus.go:16-43 | Step ten repeats itself until the action is performed, performing it whenever the relayer leads |
| `ToElrondProgress.ToElrondAttemptCompletes` | bridges/ethElrond/steps/ethToElrond/stepsFactory.go:21-52 | Any run that is at step one completes a whole attempt, with the exact path and every transaction that is its own to send: after any number of missing proposals, up to max - 1 unreached quorums and any number of looks at the action, for a relayer that leads or not |
| `ToElrondProgress.AwaitsProposal` | bridges/ethElrond/steps/ethToElrond/step02ProposeTransfer.go:16-47 | A relayer that does not lead repeats step two until the transfer is proposed, and changes nothing |
| `WitnessToEth.TransferCanBeSubmitted` | bridges/ethElrond/steps/elrondToEth/step04PerformTransfer.go:16-39 | There is a reachable world in which a single relayer, whose signature arrived as gossip, submits the pending batch |
| `WitnessToEth.StatusCanBePerformed` | bridges/ethElrond/steps/elrondToEth/stepsFactory.go:21-67 | From there the batch is executed and its resolved statuses are performed on Elrond, in a reachable world |
| `Witness.NextBatchCanBePerformed` | bridges/ethElrond/steps/ethToElrond/stepsFactory.go:21-52 | The assumptions on the world leave room for it to work: a single relayer, answered truly and without failures, gets the next batch performed on Elrond |
| `Soundness.ToElrondStepSound` | bridges/ethElrond/steps/ethToElrond/step01GetPending.go:17-66 | With true answers, each step keeps this: past step one the stored batch followed the contract's last batch at one moment and its last nonce at a later one; past step three its action identifier names its transfer |
| `Soundness.ToElrondTxSupported` | clients/elrond/client.go:290-334 | With true answers, what this machine proposes or signs is a batch that was next |
| `Soundness.ToEthStepSound` | bridges/ethElrond/steps/elrondToEth/step06ResolveSetStatus.go:16-44 | With true answers, each step keeps this: the batch was pending; from step six on it was executed on Ethereum; from step seven on its statuses are resolved answers for it; from step nine on its action identifier names them |
| `Soundness.ToEthTxSupported` | clients/elrond/client.go:265-287 | With true answers, what this machine proposes or signs on Elrond is a true status of an executed batch |
| `Soundness.ToEthBroadcastSound` | clients/ethereum/client.go:213-221 | Every hash that is broadcast is of a batch that was pending |
| `StateMachine.RunToEth` | stateMachine/stateMachine.go:74-93 | Any number of steps of the imperative machine and executor is the run of the step functions for its script, filled in with what was read: step, fields and recorded calls agree, every listing of signatures is what the store held at that step, and no step is ever missing |
| `StateMachine.RunToElrond` | stateMachine/stateMachine.go:74-93 | The same for the other half: no step is ever missing, and step, fields and recorded calls are those of the run for the script |
| `StateMachine.CreateMachineStates` | bridges/ethElrond/steps/elrondToEth/stepsFactory.go:57-66 | Building the map fails exactly when two steps share an identifier; otherwise it holds exactly the steps, each under its own |
| `StateMachine.CreateToEthSteps` | bridges/ethElrond/steps/elrondToEth/stepsFactory.go:13-67 | The ten steps have distinct identifiers and each is found under its own |
| `StateMachine.CreateToElrondSteps` | bridges/ethElrond/steps/ethToElrond/stepsFactory.go:13-52 | The five steps have distinct identifiers and each is found under its own |
| `StateMachine.Machine.constructor` | stateMachine/stateMachine.go:30-48 | A machine starts at the step with the given identifier |
| `StateMachine.Machine.GetNextStep` | stateMachine/stateMachine.go:86-93 | The step under the identifier, or the report that there is none |
| `StateMachine.Machine.MoveTo` | stateMachine/stateMachine.go:74-84 | An unknown identifier is reported and leaves no current step |
| `ToEthSteps.ExecuteGetPending` | bridges/ethElrond/steps/elrondToEth/step01GetPending.go:17-70 | Resets three counters, stores the fetched batch before it is validated, and branches on the executed flag; next step, executor and calls are those of the step function |
| `ToEthSteps.ExecuteSignTransfer` | bridges/ethElrond/steps/elrondToEth/step02SignProposedTransfer.go:16-30 | Refines the step function: a nil batch or a failed hash goes back, otherwise hash stored and broadcast |
| `ToEthSteps.ExecuteWaitForQuorum` | bridges/ethElrond/steps/elrondToEth/step03WaitForQuorumOnTransfer.go:16-35 | Refines the step function, and lists exactly what the store holds for the stored hash |
| `ToEthSteps.ExecutePerformTransfer` | bridges/ethElrond/steps/elrondToEth/step04PerformTransfer.go:16-39 | Refines the step function: executed check first, then only a leader submits, with signatures that the store holds |
| `ToEthSteps.ExecuteWaitConfirmation` | bridges/ethElrond/steps/elrondToEth/step05WaitTransferConfirmation.go:15-18 | Refines the step function: polls, then always goes on to perform |
| `ToEthSteps.ExecuteResolveStatus` | bridges/ethElrond/steps/elrondToEth/step06ResolveSetStatus.go:16-44 | Refines the step function; the store is cleared on every branch (unless disabled), and statuses are written into the stored batch object |
| `ToEthSteps.ExecuteProposeStatus` | bridges/ethElrond/steps/elrondToEth/step07ProposeSetStatus.go:16-52 | Refines the step function: the counter is incremented before the question, only a leader proposes |
| `ToEthSteps.ExecuteSignStatus` | bridges/ethElrond/steps/elrondToEth/step08SignProposedSetStatus.go:17-56 | Refines the step function: a zero identifier is stored and refused; an action already signed is not signed again |
| `ToEthSteps.ExecuteWaitForStatusQuorum` | bridges/ethElrond/steps/elrondToEth/step09WaitForQuorumOnSetStatus.go:16-35 | Refines the step function: gives up without asking once the counter is at its maximum |
| `ToEthSteps.ExecutePerformStatus` | bridges/ethElrond/steps/elrondToEth/step10PerformSetStatus.go:16-43 | Refines the step function: a performed action ends the attempt, a sent one repeats the step |
| `ToEthSteps.ExecuteStep` | stateMachine/stateMachine.go:74-84 | Whichever step is executed, it does what its step function says, and only step six touches the signature store |
| `ToElrondSteps.ExecuteGetPending` | bridges/ethElrond/steps/ethToElrond/step01GetPending.go:17-66 | Refines the step function: last identifier, the batch after it, validation, then the last nonce |
| `ToElrondSteps.ExecuteProposeTransfer` | bridges/ethElrond/steps/ethToElrond/step02ProposeTransfer.go:16-47 | Refines the step function: only a leader proposes, and only what is not proposed |
| `ToElrondSteps.ExecuteSignTransfer` | bridges/ethElrond/steps/ethToElrond/step03SignProposedTransfer.go:17-56 | Refines the step function: a zero identifier is stored and refused |
| `ToElrondSteps.ExecuteWaitForQuorum` | bridges/ethElrond/steps/ethToElrond/step04WaitForQuorum.go:16-35 | Refines the step function: gives up without asking once the counter is at its maximum |
| `ToElrondSteps.ExecutePerformAction` | bridges/ethElrond/steps/ethToElrond/step05PerformActionID.go:16-43 | Refines the step function: a performed action ends the attempt, a sent one repeats the step |
| `ToElrondSteps.ExecuteStep` | stateMachine/stateMachine.go:74-84 | Whichever step is executed, it does what its step function says and leaves the signature store alone |
| `Protocol.FinalStatusesWereRead` | bridges/ethElrond/bridgeExecutor.go:345-366 | Non-empty final statuses are the last answer that was read for the batch |
| `Protocol.FinalStatusesExact` | bridges/ethElrond/bridgeExecutor.go:345-366 | Final statuses are exactly the first answer that is not empty, with no wait cut short before it |
| `Protocol.ConfirmationsAsked` | bridges/ethElrond/bridgeExecutor.go:335-342 | Confirmation is asked for poll by poll, past waits that are cut short, up to and including the first answer that confirms |
| `Protocol.PollsAreTen` | bridges/ethElrond/bridgeExecutor.go:335-366 | At most ten polls take place, and no fewer |
| `EthereumClient.ExtractList` | clients/ethereum/client.go:279-297 | The loop yields the four lists of the specification, entry by entry those of the deposits |
| `EthereumClient.ListsAt` | clients/ethereum/client.go:279-297 | One entry per deposit, in order: converted token and recipient, as they are if they have twenty bytes and modulo 256^20 in any case, then amount and nonce |
| `EthereumClient.ListsExact` | clients/ethereum/client.go:279-297 | No other lists carry the deposits |
| `EthereumClient.AddressExact` | clients/ethereum/client.go:283-287 | The address of some bytes is the only one with their value modulo 256^20; twenty bytes are their own address |
| `EthereumClient.GenerateMessageHash` | clients/ethereum/client.go:224-246 | The Keccak hash of the prefix of version 0x45 of EIP-191 and the hash of the packed lists and identifier; a nil batch is refused |
| `EthereumClient.MessageHashExact` | clients/ethereum/client.go:224-277 | What is hashed: recipients before tokens, amounts and nonces, deposit by deposit, the identifier and the name of the method are packed, hashed, put behind the prefix and hashed again |
| `EthereumClient.PrefixSpelled` | clients/ethereum/client.go:224-246 | The prefix is the byte 0x19 and "Ethereum Signed Message:", a line feed and "32" |
| `EthereumClient.NoCollisionsFrom` | clients/ethereum/client.go:248-277 | Packing and hashing that tell their arguments apart make the message hash tell every list and the identifier apart |
| `EthereumClient.QuorumCheckExact` | clients/ethereum/client.go:515-526 | The check compares with the quorum, refusing zero, exactly if the quorum is below 2^63 |
| `EthereumClient.QuorumCheckTruncates` | clients/ethereum/client.go:515-526 | For every quorum: the check fails exactly if its low 64 bits are zero, and passes exactly if they are at least 2^63 or at most the number of signatures |
| `EthereumClient.GetCumulatedTransfers` | clients/ethereum/client.go:435-448 | The map holds for each token exactly the sum of its amounts |
| `EthereumClient.CheckCumulatedTransfers` | clients/ethereum/client.go:450-470 | Passes exactly if every total is within a readable balance, whatever the order of the map |
| `EthereumClient.CheckAvailableTokens` | clients/ethereum/client.go:429-433 | Passes exactly on affordable lists |
| `EthereumClient.NeverOverdrawn` | clients/ethereum/client.go:429-470 | Paying affordable lists deposit by deposit overdraws no token at any prefix |
| `EthereumClient.SumsConserveTotal` | clients/ethereum/client.go:435-448 | The per-token sums, in any order of the distinct tokens, add up to the total of all amounts |
| `EthereumClient.ExecuteTransfer` | clients/ethereum/client.go:300-385 | The outcome, check by check in order, for the signatures that the holder lists for the hash |
| `EthereumClient.SubmissionCarries` | clients/ethereum/client.go:348-376 | A sent submission carries the batch's recipients, tokens, amounts, nonces and identifier, exactly quorum-many distinct signatures held for the hash, and is affordable |
| `EthereumClient.SentExactly` | clients/ethereum/client.go:300-385 | A transfer is sent if and only if the contract runs, there are at least quorum-many signatures, the safe can pay every token, and the relayer can pay the gas limit of the batch at the gas price (limits below 2^63) |
| `EthereumClient.FeeExact` | clients/ethereum/client.go:370-375 | The fee that is compared with the relayer's funds is gas limit times gas price exactly if the limit is below 2^63 or gas costs nothing |
| `EthereumClient.FeeTruncates` | clients/ethereum/client.go:370-375 | For gas limits from 2^63 to 2^64 any funds are enough |
| `EthereumClient.RefusedFor` | clients/ethereum/client.go:300-385 | A paused contract, a missing quorum and missing funds are refused under their own names |
| `EthereumClient.CarriesNothing` | clients/ethereum/client.go:348-356 | A sent submission carries no signature exactly if the low 64 bits of the quorum are zero |
| `EthereumClient.PanicsExactly` | clients/ethereum/client.go:348-376 | Once past pause and gas price, preparation slices out of range exactly when the low 64 bits of the quorum are at least 2^63 |
| `EthereumClient.HexInjective` | core/converters/converters.go:34-36 | Hexadecimal strings tell byte strings apart |
| `EthereumClient.CacheExact` | clients/ethereum/client.go:171-200 | The cache knows a hexadecimal string exactly if its token was converted, and then holds that conversion |
| `EthereumClient.ConvertDeposits` | clients/ethereum/client.go:171-200 | The cached loop gives what converting every deposit gives, field by field and in order, and asks once per distinct token |
| `EthereumClient.GetBatch` | clients/ethereum/client.go:151-205 | A fetched batch hands out the contract's fields: recipient, depositor, token, its conversion and amount of every deposit in order, identifier and nonces by their low 64 bits, a zero status each; the cache is invisible, a wrong deposits count and every error are reported in order |
| `EthereumClient.FetchedExactly` | clients/ethereum/client.go:151-205 | A batch is the result if and only if it hands out these fields and the deposits count is right |
| `ElrondCodec.ProposeTransferArgs` | clients/elrond/client.go:300-308 | The propose loop spells the batch position by position: identifier, then from, to, converted token, amount and nonce of each deposit in order, numbers without leading zeros |
| `ElrondCodec.QueryTransferArgs` | clients/elrond/dataGetter.go:269-300 | Asking whether a transfer was proposed, and for its identifier, uses exactly the proposed argument list, position by position |
| `ElrondCodec.AddBatchInfo` | clients/elrond/dataGetter.go:422-430 | The helper loop adds exactly the proposed arguments, five per deposit |
| `ElrondCodec.ProposeSetStatusArgs` | clients/elrond/client.go:275-278 | The propose loop spells the identifier and then each status in one byte, in order |
| `ElrondCodec.ArgInt64Equal` | clients/elrond/client.go:260-262 | Two 64-bit values get equal argument bytes exactly if they have the same magnitude as signed values |
| `ElrondCodec.ArgInt64Collision` | clients/elrond/client.go:260-262 | From 2^63 on two different values do get equal bytes |
| `ElrondCodec.TransferArgsEqual` | clients/elrond/client.go:300-308 | Transfer lists are equal exactly if the identifiers and, deposit by deposit, all five encoded fields agree up to that magnitude |
| `ElrondCodec.TransferArgsInjective` | clients/elrond/client.go:300-308 | For identifiers and nonces below 2^63, equal transfer lists mean equal identifier and equal from, to, converted token, amount and nonce of every deposit |
| `ElrondCodec.SetStatusArgsEqual` | clients/elrond/client.go:275-278 | Set-status lists are equal exactly if the identifiers agree up to that magnitude and the statuses are equal |
| `ElrondCodec.DecodeTransfer` | clients/elrond/dataGetter.go:422-430 | The contract reads back the identifier and the nonces that were encoded exactly if all of them are at most 2^63 |
| `ElrondCodec.DecodedPaymentsExact` | clients/elrond/dataGetter.go:422-430 | The contract reads back for every deposit from whom, to whom, which token and how much; and the nonces too exactly if all are at most 2^63 |
| `ElrondCodec.FetchPending` | clients/elrond/client.go:182-258 | The parser with its cache gives the cache-free result, whose fields are those of the response, and asks the mapper once per distinct token |
| `ElrondCodec.FetchDeposits` | clients/elrond/client.go:215-251 | The loop gives the deposits of the response, or the first error, and asks once per distinct token |
| `ElrondCodec.CachedConversion` | clients/elrond/client.go:238-247 | The lookup is transparent: it always gives the mapper's answer and calls it for new tokens only |
| `ElrondCodec.ParseSucceedsExactly` | clients/elrond/client.go:200-258 | Parsing succeeds exactly when the length is 1 mod 6 and above 1, identifier and nonces are below 2^64, and every token converts |
| `ElrondCodec.ParsedExactly` | clients/elrond/client.go:182-258 | A response is parsed to a batch if and only if it spells the batch field by field: identifier, then block nonce, nonce, from, to, token and amount per deposit, with the converted token and a zero status each |
| `ElrondCodec.ShapeErrorsNamed` | clients/elrond/client.go:182-206 | An empty answer, a wrong number of fields and an oversized identifier are refused under their own names |
| `ElrondCodec.FirstErrorNamed` | clients/elrond/client.go:196-258 | The first deposit that cannot be read names the error: its nonce with the deposit's number, its token with the index |
| `ElrondCodec.ParsedShape` | clients/elrond/client.go:252-258 | A parsed batch has one zero status per deposit, and six fields of the response for each |
| `ElrondCodec.ParseEncoded` | integrationTests/mock/elrondContractStateMock.go:411-426 | Encoding a pending batch and parsing it returns its deposits in order, with zeroed statuses |
| `BigEndian.ValueOfMinimal` | clients/elrond/dataGetter.go:203-210 | The minimal big-endian form of a number has its value |
| `BigEndian.MinimalInjective` | clients/elrond/dataGetter.go:422-430 | Minimal forms tell numbers apart |
| `BigEndian.MinimalExact` | clients/elrond/dataGetter.go:422-430 | The minimal form is the only form of its value without a leading zero |
| `BigEndian.ValueConcat` | clients/elrond/client.go:236-243 | Earlier bytes count for more |
| `BigEndian.Uint64RoundTrip` | p2p/relayerMessageHandler.go:97-115 | The eight-byte form of a 64-bit value has its value |
| `Batches.TransferBatch.ResolveNewDeposits` | clients/batch.go:48-64 | The two loops in place give the resolved statuses |
| `Batches.TransferBatch.Clone` | clients/batch.go:21-34 | A different object of equal value |
| `Batches.ResolvedShape` | clients/batch.go:48-64 | Resolving k statuses against n deposits gives max(k, n) of them, keeps the first min(k, n) and rejects the others |
| `Batches.ResolvedAt` | clients/batch.go:48-64 | A status survives exactly where there is a deposit for it; every other place holds status 4, which is not that of an execution |
| `Batches.ResolvedIdempotent` | clients/batch.go:48-64 | Resolving twice is resolving once |
| `Batches.ResolvedCommute` | clients/batch.go:48-64 | Two resolutions commute |
| `SignatureStore.SignaturesHolder.ProcessNewMessage` | bridges/ethElrond/signaturesHolder.go:25-35 | A delivery replaces the message of its identifier and appends the signature; a missing part is ignored |
| `SignatureStore.SignaturesHolder.AllStoredSignatures` | bridges/ethElrond/signaturesHolder.go:38-48 | Every stored message once |
| `SignatureStore.SignaturesHolder.Signatures` | bridges/ethElrond/signaturesHolder.go:51-68 | Every signature held for the hash once, and no other |
| `SignatureStore.SignaturesHolder.ClearStoredSignatures` | bridges/ethElrond/signaturesHolder.go:71-77 | Nothing is held |
| `SignatureStore.SignaturesAreDelivered` | bridges/ethElrond/signaturesHolder.go:51-68 | After any sequence of deliveries and clears, a signature is held for a hash exactly if it was delivered for it since the last clear |
| `SignatureStore.SignaturesGrow` | bridges/ethElrond/signaturesHolder.go:25-35 | Deliveries only add to the signatures of a hash |
| `SignatureStore.StoredAreNewest` | bridges/ethElrond/signaturesHolder.go:25-48 | After any sequence of deliveries and clears, the stored messages are exactly the newest per identifier since the last clear |
| `SignatureStore.StoredAreLatestExactly` | bridges/ethElrond/signaturesHolder.go:38-48 | They are exactly the latest per key and payload if and only if identifiers tell the sources of the deliveries apart |
| `SignatureStore.StoredAreLatest` | bridges/ethElrond/signaturesHolder.go:38-48 | For public keys of one length they do, so the stored messages are the latest per key and payload |
| `SignatureStore.DisplacedByCollision` | bridges/ethElrond/signaturesHolder.go:25-35 | Without that, a delivery can displace the latest message of another source in a store taken alone: a concrete log, which no node can have |
| `SignatureStore.MergedAreNewest` | p2p/broadcaster.go:237-247 | If all clients got the same deliveries, each with a clear of its own, the merge holds exactly the newest messages per identifier that some client still holds |
| `SignatureStore.MergedAreLatest` | p2p/broadcaster.go:237-247 | With the same deliveries since the last clears, and identifiers that tell sources apart, the merge is exactly the latest message per key and payload |
| `SignatureStore.RetrieveUniqueMessages` | p2p/broadcaster.go:237-247 | The merge loop over all clients is the merge of the specification |
| `SignatureStore.MergedClientsExact` | p2p/broadcaster.go:237-247 | Merging the listings of all clients, in any order within each, overlays their stores, a later client over an earlier one |
| `Messages.UniqueIDExact` | core/messages.go:16-18 | For keys of one length the identifier names sender and payload |
| `Messages.UniqueIDCollision` | core/messages.go:16-18 | For keys of different lengths two sources can share an identifier |
| `ReplayFilter.NoncesOfPublicKeys.ProcessNonce` | p2p/noncesOfPublicKeys.go:22-36 | A message passes exactly if its nonce is above the remembered one, which it then becomes |
| `ReplayFilter.NoncesOfPublicKeys.SortedPublicKeys` | p2p/noncesOfPublicKeys.go:39-53 | The keys in byte order, whatever the order of the map |
| `ReplayFilter.LastNonceIsMaximum` | p2p/noncesOfPublicKeys.go:22-36 | The remembered nonce is the largest that arrived from the key, or zero |
| `ReplayFilter.PassesExactly` | p2p/noncesOfPublicKeys.go:22-36 | A message passes if and only if its nonce is positive and above every earlier one of its key |
| `ReplayFilter.PassedIncrease` | p2p/noncesOfPublicKeys.go:22-36 | What one key gets through is strictly increasing, so nothing passes twice |
| `ReplayFilter.ListedKeysPassed` | p2p/noncesOfPublicKeys.go:39-53 | The listed keys are exactly those that got a message through |
| `Envelope.PreProcess` | p2p/relayerMessageHandler.go:47-94 | A packet is accepted exactly if it unmarshals to a message of fitting sizes from a known key that signed payload and nonce, and the result is that message |
| `Envelope.SignedBytesDetermine` | p2p/relayerMessageHandler.go:47-80 | The signed bytes determine payload and nonce |
| `Envelope.SignedBytesSpelled` | p2p/relayerMessageHandler.go:47-80 | The signed bytes begin with the payload and end with the nonce in eight big-endian bytes |
| `Envelope.RelayerMessageHandler.CreateMessage` | p2p/relayerMessageHandler.go:97-115 | The counter goes up with 64-bit wrap-around and becomes the nonce of the signed message |
| `Envelope.CreatedIsReceived` | p2p/relayerMessageHandler.go:47-115 | A created message is received as itself exactly if key, signature and payload have at most 1024 bytes each |
| `Gossip.VerifyEthSignatureExact` | clients/roleProviders/ethereumRoleProvider.go:87-114 | Verification succeeds exactly if the recovered key's address is whitelisted and the trimmed signature verifies |
| `Gossip.TrimmedExact` | clients/roleProviders/ethereumRoleProvider.go:87-114 | A signature of 64 bytes is left alone, and of one with a recovery byte behind it these 64 are kept |
| `Gossip.EthereumRoleProvider.ProcessResults` | clients/roleProviders/ethereumRoleProvider.go:70-83 | The whitelist becomes exactly the addresses of the answer |
| `Gossip.EthereumRoleProvider.Verify` | clients/roleProviders/ethereumRoleProvider.go:87-123 | The checks in order, against the current whitelist |
| `Gossip.Broadcaster.AddBroadcastClient` | p2p/broadcaster.go:304-314 | The client is registered last |
| `Gossip.Broadcaster.ProcessReceivedMessage` | p2p/broadcaster.go:142-180 | Filter and stores change as the node specification says: well formed, whitelisted, fresh, then flood; only a join is answered, with the overlay of all stores: every identifier held, with the message of the last client that holds it |
| `Gossip.Broadcaster.ProcessSignMessage` | p2p/broadcaster.go:204-212 | A signature that verifies is delivered to every client, any other to none |
| `Gossip.Broadcaster.NotifyClients` | p2p/broadcaster.go:214-221 | Every client gets the delivery as often as it is registered |
| `Gossip.Broadcaster.CurrentSignatures` | p2p/broadcaster.go:223-247 | The overlay of all stores: every identifier held, with the message of the last client that holds it |
| `Gossip.Broadcaster.ProcessByTopic` | p2p/broadcaster.go:172-177 | A join is answered and changes nothing; a signature is processed; any other topic does nothing |
| `Gossip.NodeReplays` | p2p/broadcaster.go:142-221 | The store of a node is the replay of what its packets delivered and of its clears |
| `Gossip.NodeStoresLatest` | p2p/broadcaster.go:142-180 | In a node whose whitelists hold 32-byte addresses, as the role provider demands, the stored messages are exactly the latest per key and payload since the last clear |
| `Gossip.NodeHoldsDelivered` | bridges/ethElrond/signaturesHolder.go:51-68 | In a node, the signatures held for a hash are exactly those delivered for it since the last clear |
| `Gossip.StoreProvenance` | p2p/broadcaster.go:142-212 | A node holds a signature for a hash exactly if some packet delivered it and no clear came after |
| `Gossip.DeliveredExactly` | p2p/broadcaster.go:142-212 | A packet delivers a signature if and only if it is a readable, signed message of fitting sizes from a whitelisted key with a nonce above the last, let through, on the signature topic, with a readable signature that a whitelisted address made |
| `Gossip.SentSignatureIsHeld` | p2p/broadcaster.go:142-221 | A signature that a whitelisted relayer sends under a new nonce is held by every node that lets it through, and the same packet changes nothing a second time |
| `Gossip.HeldSignatureProvenance` | p2p/broadcaster.go:142-212 | A held signature came, since the last clear, in an authentic message of a then whitelisted key with a nonce above the remembered one, and verified under a then whitelisted address |
| `Gossip.HeldNonceIsFresh` | p2p/noncesOfPublicKeys.go:22-36 | That nonce is positive and above every nonce the key had offered before |
| `Gossip.NodeFilters` | p2p/broadcaster.go:142-180 | A node's nonces are those of the filter run over the messages offered to it |
| `Gossip.HeldSignaturesGrow` | bridges/ethElrond/signaturesHolder.go:25-35 | Without a clear, the signatures a node holds for a hash only grow |
| `Topology.SortedUnique` | clients/roleProviders/elrondRoleProvider.go:108-121 | A set of keys has one byte-sorted listing |
| `Topology.SortKeys` | clients/roleProviders/elrondRoleProvider.go:108-121 | Sorting what a map yields in any order gives that listing |
| `Topology.ElrondRoleProvider.ProcessResults` | clients/roleProviders/elrondRoleProvider.go:69-91 | The whitelist is replaced by the answer, or kept if any address is malformed |
| `Topology.ElrondRoleProvider.IsWhitelisted` | clients/roleProviders/elrondRoleProvider.go:94-105 | Membership in the current whitelist |
| `Topology.ElrondRoleProvider.SortedPublicKeys` | clients/roleProviders/elrondRoleProvider.go:108-121 | The listing of the current whitelist |
| `Topology.RandomInt` | bridges/ethElrond/topology/hashRandomSelector.go:16-28 | The choice is below the number of keys |
| `Topology.ElectedByDigest` | bridges/ethElrond/topology/hashRandomSelector.go:16-28 | The key that leads is the one whose place in the sorted listing is the first eight bytes of the digest of the slot, read as a number, modulo the number of keys: digests that differ by a multiple of it elect the same key |
| `Topology.EveryKeyCanLead` | bridges/ethElrond/topology/hashRandomSelector.go:16-28 | For every whitelisted key there is a digest that makes it lead |
| `Topology.LessIsSmaller` | clients/roleProviders/elrondRoleProvider.go:108-121 | For keys of one length the order of the listing is that of their big-endian values |
| `Topology.PrefixIsLess` | clients/roleProviders/elrondRoleProvider.go:108-121 | A key comes before its continuations |
| `Topology.SlotsCount` | bridges/ethElrond/topology/topologyHandler.go:52-78 | Slots count the intervals since time zero, modulo 2^64, so consecutive intervals have consecutive slots; before time zero they count down |
| `Topology.MyTurnAsLeader` | bridges/ethElrond/topology/topologyHandler.go:52-78 | The answer is that of any listing of the whitelist for the current slot, and it is whether the address leads |
| `Topology.UniqueLeader` | bridges/ethElrond/topology/topologyHandler.go:52-78 | For a non-empty whitelist every slot has exactly one leader and it is whitelisted; an empty one has none |
| `Topology.SlotIsAnInterval` | bridges/ethElrond/topology/topologyHandler.go:52-78 | Times in one interval have one slot, and it is shorter than the interval |
| `Executor.BridgeExecutor.constructor` | bridges/ethElrond/bridgeExecutor.go:108-122 | A new executor holds no batch, a zero identifier, a zero hash and zero counters |
| `Executor.BridgeExecutor.GetBatchFromElrond` | bridges/ethElrond/bridgeExecutor.go:149-155 | Hands out a new batch object and stores nothing |
| `Executor.BridgeExecutor.StoreBatchFromElrond` | bridges/ethElrond/bridgeExecutor.go:158-165 | Stores the object itself, and refuses nil |
| `Executor.BridgeExecutor.ValidateBatch` | bridges/ethElrond/bridgeExecutor.go:534-536 | Reports the validator's answer for exactly this batch |
| `Executor.BridgeExecutor.GetLastExecutedEthBatchIDFromElrond` | bridges/ethElrond/bridgeExecutor.go:173-179 | Reports the contract's last identifier and changes nothing else |
| `Executor.BridgeExecutor.GetAndStoreBatchFromEthereum` | bridges/ethElrond/bridgeExecutor.go:438-453 | Stores the fetched batch exactly if it has the requested identifier and a deposit; otherwise the old one stays |
| `Executor.BridgeExecutor.VerifyLastDepositNonceExecutedOnEthereumBatch` | bridges/ethElrond/bridgeExecutor.go:182-193 | Succeeds exactly if the nonces of the stored batch follow the nonce read |
| `Executor.BridgeExecutor.VerifyDepositNonces` | bridges/ethElrond/bridgeExecutor.go:195-206 | The loop succeeds exactly if the nonces count up from the one after the last, with 64-bit wrap-around |
| `Executor.BridgeExecutor.WasTransferProposedOnElrond` | bridges/ethElrond/bridgeExecutor.go:246-252 | Asks about the very action that would be proposed |
| `Executor.BridgeExecutor.ProposeTransferOnElrond` | bridges/ethElrond/bridgeExecutor.go:255-269 | Sends the transfer of the stored batch, unless the contract is or may be paused |
| `Executor.BridgeExecutor.WasSetStatusProposedOnElrond` | bridges/ethElrond/bridgeExecutor.go:287-293 | Asks about the very action that would be proposed |
| `Executor.BridgeExecutor.ProposeSetStatusOnElrond` | bridges/ethElrond/bridgeExecutor.go:296-310 | Sends the set-status of the stored batch, unless the contract is or may be paused |
| `Executor.BridgeExecutor.GetAndStoreActionIDForProposeTransferOnElrond` | bridges/ethElrond/bridgeExecutor.go:209-222 | The identifier given for the transfer that was proposed is stored, a failure stores nothing |
| `Executor.BridgeExecutor.GetAndStoreActionIDForProposeSetStatusFromElrond` | bridges/ethElrond/bridgeExecutor.go:225-238 | The identifier given for the set-status that was proposed is stored, a failure stores nothing |
| `Executor.BridgeExecutor.WasActionSignedOnElrond` | bridges/ethElrond/bridgeExecutor.go:313-315 | Asks about the stored identifier |
| `Executor.BridgeExecutor.SignActionOnElrond` | bridges/ethElrond/bridgeExecutor.go:318-327 | Signs the stored identifier, unless the contract is or may be paused |
| `Executor.BridgeExecutor.ProcessQuorumReachedOnElrond` | bridges/ethElrond/bridgeExecutor.go:330-332 | Asks about the stored identifier |
| `Executor.BridgeExecutor.WasActionPerformedOnElrond` | bridges/ethElrond/bridgeExecutor.go:396-398 | Asks about the stored identifier |
| `Executor.BridgeExecutor.PerformActionOnElrond` | bridges/ethElrond/bridgeExecutor.go:401-415 | Performs the stored identifier; refused without a stored batch |
| `Executor.BridgeExecutor.MyTurnAsLeader` | bridges/ethElrond/bridgeExecutor.go:144-146 | Reports the election and changes nothing |
| `Executor.BridgeExecutor.ProcessMaxRetriesOnWasTransferProposedOnElrond` | bridges/ethElrond/bridgeExecutor.go:272-279 | Counts up to the maximum and then reports exhaustion without counting |
| `Executor.BridgeExecutor.ProcessMaxQuorumRetriesOnElrond` | bridges/ethElrond/bridgeExecutor.go:423-430 | Counts up to the maximum and then reports exhaustion without counting |
| `Executor.BridgeExecutor.ProcessMaxQuorumRetriesOnEthereum` | bridges/ethElrond/bridgeExecutor.go:513-520 | Counts up to the maximum and then reports exhaustion without counting |
| `Executor.BridgeExecutor.ResetRetriesCountOnEthereum` | bridges/ethElrond/bridgeExecutor.go:523-525 | Only this counter becomes zero |
| `Executor.BridgeExecutor.ResetRetriesCountOnElrond` | bridges/ethElrond/bridgeExecutor.go:433-435 | Only this counter becomes zero |
| `Executor.BridgeExecutor.ResetRetriesOnWasTransferProposedOnElrond` | bridges/ethElrond/bridgeExecutor.go:282-284 | Only this counter becomes zero |
| `Executor.BridgeExecutor.WasTransferPerformedOnEthereum` | bridges/ethElrond/bridgeExecutor.go:456-462 | Asks about the stored batch; fails without one |
| `Executor.BridgeExecutor.SignTransferOnEthereum` | bridges/ethElrond/bridgeExecutor.go:465-481 | Succeeds exactly if there is a batch that hashes; then its hash is stored and broadcast |
| `Executor.BridgeExecutor.ProcessQuorumReachedOnEthereum` | bridges/ethElrond/bridgeExecutor.go:508-510 | Compares the distinct signatures held for the stored hash with the quorum |
| `Executor.BridgeExecutor.PerformTransferOnEthereum` | bridges/ethElrond/bridgeExecutor.go:484-505 | Submits, refuses or fails as the client does for the stored batch and hash; it reads the signatures held for that hash, unless it is refused before |
| `Executor.BridgeExecutor.WaitForTransferConfirmation` | bridges/ethElrond/bridgeExecutor.go:335-342 | At most ten polls about the stored batch, the last one the first that confirms; a wait cut short asks nothing |
| `Executor.BridgeExecutor.GetBatchStatusesFromEthereum` | bridges/ethElrond/bridgeExecutor.go:382-393 | Asks about the stored batch; fails without one |
| `Executor.BridgeExecutor.WaitAndReturnFinalBatchStatuses` | bridges/ethElrond/bridgeExecutor.go:345-366 | The first non-empty statuses among at most ten polls, or nothing; a wait cut short ends it |
| `Executor.BridgeExecutor.ResolveNewDepositsStatuses` | bridges/ethElrond/bridgeExecutor.go:418-420 | The stored batch object gets its statuses resolved in place |
| `Executor.BridgeExecutor.ClearStoredP2PSignaturesForEthereum` | bridges/ethElrond/bridgeExecutor.go:528-531 | The shared store is emptied, unless this half has the disabled holder |

## Left out

- Theorems.DepositsTile: assumes identifiers and nonces below 2^63 (see above), because beyond it the contract cannot tell two argument lists apart.
- Theorems.QuorumIsStable: speaks of the relayer's own verdict on its signatures; a chain that itself reported the same error would be indistinguishable in the model, so such reports are excluded.
- Theorems.OneLeaderPerSlot: compares relayers that use the same whitelist and the same interval; relayers with different whitelists can both lead.
- Builders and queries of the SDK: their errors are arbitrary errors of the call, which includes their refusal of an empty argument.
- The branch for a nil pending batch without an error: the client never returns one.
- Availability checks, metrics, log lines, display fields and gas price bookkeeping of the clients.
- Networking: topics, peers, join broadcasts and sending; a packet is its bytes, its topic and the verdict of the antiflood component.
- Failures to sign inside the process: the code logs them and sends nothing, which here is a packet that never arrives.
- The batch validator, the token mapper and the contracts' own checks: any answer, any error.
- Other transactions and upgrades of the contracts; a proposal for a known argument list changes nothing.
- Concurrency inside a step: packets are processed between steps, and the store is read by one call at a time, as its lock has it.
- Liveness under arbitrary answers: an attempt may go back to its first step forever; `ToEthProgress` and `ToElrondProgress` show that it completes when answers allow.
- Constructors' nil checks, configuration, the API, the price feeder, persistence and the factory, except that the Elrond to Ethereum half shares its signature store and the other half has a disabled one.
