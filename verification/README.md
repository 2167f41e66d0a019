# Verified model of the conformance and benchmark machinery

The repository builds and measures an Algorand node. What decides whether that node is right is the
machinery around it: a deterministic workload generator, a MessagePack codec with a response gate,
a byte-level splicer for captured blocks, pre-state finders, an exact confidence interval, trace
monitors and a bytecode fuzzer. This project models that machinery in Dafny and proves what it
promises, for every input, every random choice and every run. `dafny verify dfyconfig.toml` checks
all of it. Nothing here executes the original programs.

**Workload generator** (`Ledger`, `Planner*`, `Workload`, `KnownSet`, `Conservation`, `Corpus`,
`Drive`). `Ledger.dfy` is a small Algorand ledger: accounts and their signing keys, asset holdings with
frozen flags, applications, boxes, participation. `Planner.dfy` holds what each action and each
deferred step of the generator emits and records; `PlannerInv.dfy` the invariant: the generator's
records are the ledger, every frozen, rekeyed, online or not yet granted account is reserved until a
pending step undoes it, and asset A's units are all accounted for. Each action and each deferred step
is proved to be accepted and to keep the invariant. `PlannerTape.dfy` is the generator as a function of
the random tape, and `Workload.dfy` the generator object itself, whose methods update its fields and
are proved to compute that function. The supplies of asset A are fixed numbers, and three steps draw on
them: an opt-in grant, an ephemeral account's units and an inner transfer. `PlannerVerdict.dfy` proves
that the ledger accepts a round exactly when none of these is short, and `Drive.dfy` closes the loop
over whole runs of any size, with the replay tool following the blocks. `Fits` is a bound on accounts
and rounds within which no run is ever short, whatever the random source yields. `Corpus.dfy` proves
that the random source determines the run.

**Submission** (`Submission`, `Corpus`). A state machine of the driver, the node's verification threads
and its block notifier, with every interleaving, rejection and time-out allowed; and that it delivers
the generator's rounds to the ledger.

**MessagePack** (`Bytes`, `MsgPack*`, `KeyOrder`) and the **state-proof splicer** (`MsgTree`,
`StateProof*`). One value type and one reader serve both. The splicer is proved on byte strings
against a structural parse that keeps every byte, and then against decoding, with the exact condition
under which it is accepted and under which the decoded result is the intended one.

**Diff and gate** (`JsonDiff`, `DocPaths`, `Gate`). Keys may be visited in any order, because the
source sorts by `str` and leaves ties open.

**History** (`History`), **confidence interval** (`Binomial`, `MedianCI`), **monitors** (`Monitor`,
`Collector`, `PhaseTracker`, `HashSampling`, `HashGate`) and the **TEAL fuzzer** (`Bytecode`, `Emitter`).

Where code and documentation disagree, the model follows the code:

- `peer_advancing_between` says the peer's round increased; the code asks whether two different
  rounds were seen, so a peer that only fell back counts. `Monitor.StuckIsDocumented` says exactly when
  the verdict is the documented one, `Monitor.FallingPeerCounts` gives samples that separate them.
- The fuzzer's comment gives versions 1 to 10; the code draws from 2 to 10.
- The splicer removes the last `sp` entry it finds in a state-proof transaction, so a repeated key
  leaves one behind. `StateProofMeaning.StripPreserves` proves that the decoded result is right if and
  only if no transaction in view repeats the key; `StateProofScan.ProofBodySurvives` is a response for
  which it is not.

## Model

| member | source | states |
|---|---|---|
| Driver.Drive | benchmarks/go-corpus/main.go:238-303 | for every random source and every number of accounts and rounds: as long as no round asks for units that are not there, no key is missing, no block is refused, and after every round the generator's records are the ledger and the replayed account set is the generator's list; the run stops at the first round that does; within `Fits` it never stops |
| Driver.RegularBlock | benchmarks/go-corpus/main.go:242-303 | one round after setup goes through exactly when no step of its plan is short of units: it is signed, accepted as one payset, its created ids are handed back, and the invariant holds again; otherwise the ledger refuses the payset |
| Driver.SetupBlock | benchmarks/go-corpus/main.go:242-303 | one setup round: accepted, and generator, ledger and known set are one setup step further |
| Driver.SignAll | benchmarks/go-corpus/main.go:247-256 | an error exactly when some signer's key is missing, and else the payset is the concatenation of the groups in plan order |
| Driver.RoundDone | benchmarks/go-corpus/main.go:291-303 | after the hand-out every throwaway app and asset knows the id the ledger gave it, the invariant still holds, and the known addresses grew by exactly the payment receivers of the block |
| PlannerVerdict.RoundVerdict | benchmarks/go-corpus/workload.go:655-697 | the ledger accepts the plan of a round exactly when no deferred step and no random action in it is short of units; then the generator's model is the ledger again; within `Fits` that is every round |
| PlannerVerdict.DrawOutcome | benchmarks/go-corpus/workload.go:287-308 | whatever the tape draws, the action is accepted and exact, or finds no account, unless the main application is out of units |
| Corpora.Deterministic | benchmarks/go-corpus/main.go:48-50 | two runs with the same random source and parameters plan the same groups in every round and pass through the same states |
| PlannerTape.PlansOnce | benchmarks/go-corpus/workload.go:655-697 | the generator's state and the random tape determine the plan of a round and the state after it |
| PlannerTape.DrawActs | benchmarks/go-corpus/workload.go:287-308 | every entry of the table of actions draws one of the generator's actions on accounts that enable it, or nothing but picks |
| PlannerRun.ActionSim | benchmarks/go-corpus/workload.go:287-308 | whatever account choice a regular action makes, the ledger accepts the planned group and the generator's model equals the ledger afterwards, unless the main application has no unit left for an inner transfer |
| PlannerRun.ActionPlanning | benchmarks/go-corpus/workload.go:44-57 | planning any enabled action: accepted, exact, signable with keys the generator owns, payment receivers known, created ids waited for |
| PlannerRun.StepPlanning | benchmarks/go-corpus/workload.go:660-667 | the same for the next deferred step of the round, which is always in range |
| PlannerDeferred.StepSim | benchmarks/go-corpus/workload.go:662-666 | every deferred step finds the state it expects: the ledger accepts it and the model stays exact, unless the admin is short of the units it moves |
| PlannerActions.PaySim | benchmarks/go-corpus/workload.go:310-317 | a payment between two free accounts is accepted and changes nothing modelled but the busy marks |
| PlannerActions.AxferSim | benchmarks/go-corpus/workload.go:319-329 | a transfer between two free holders is accepted (neither is frozen) and both recorded balances follow the ledger |
| PlannerActions.ClawbackSim | benchmarks/go-corpus/workload.go:331-343 | the admin's clawback of one unit is accepted and recorded |
| PlannerActions.AssetOptInSim | benchmarks/go-corpus/workload.go:346-360 | an opt-in is accepted, and the pending grant and the reservation keep the invariant |
| PlannerActions.IncSim | benchmarks/go-corpus/workload.go:362-368 | a call of the counter method by an opted-in account is accepted |
| PlannerActions.AppOptSim | benchmarks/go-corpus/workload.go:370-395 | opting in, closing out and clearing are accepted exactly as the record of the opt-in says |
| PlannerResources.BoxPutSim | benchmarks/go-corpus/workload.go:397-414 | a new box name is unused, and the list of boxes stays the ledger's set |
| PlannerResources.BoxDelSim | benchmarks/go-corpus/workload.go:416-431 | the box picked for deletion exists, and the list of boxes stays the ledger's set |
| PlannerResources.SwapRemove | benchmarks/go-corpus/workload.go:416-431 | swap-remove drops exactly the picked name from a list without repetitions and keeps it without repetitions |
| PlannerResources.InnerSim | benchmarks/go-corpus/workload.go:435-445 | while the main application has a unit the inner transfer and call succeed, and the caller's record grows by one |
| PlannerActions.FreezeSim | benchmarks/go-corpus/workload.go:475-493 | a freeze is accepted; the frozen account is reserved until the pending unfreeze |
| PlannerActions.RekeySim | benchmarks/go-corpus/workload.go:497-521 | a rekey is accepted; the account signs with the other key until the pending rekey back |
| PlannerResources.CloseOutSim | benchmarks/go-corpus/workload.go:526-555 | opening an ephemeral account is accepted and its four later steps are expected |
| PlannerActions.KeyregSim | benchmarks/go-corpus/workload.go:559-585 | going online is accepted; the account is reserved until the pending offline registration |
| PlannerResources.AppLifecycleSim | benchmarks/go-corpus/workload.go:589-614 | creating a throwaway app is accepted; its id is the ledger's next one |
| PlannerResources.AssetLifecycleSim | benchmarks/go-corpus/workload.go:618-652 | creating a throwaway asset is accepted; its id is the ledger's next one |
| PlannerDeferred.GrantSim | benchmarks/go-corpus/workload.go:346-360 | a grant that the admin's balance covers is accepted and recorded |
| PlannerDeferred.UnfreezeSim | benchmarks/go-corpus/workload.go:475-493 | the unfreeze is accepted and clears the frozen mark |
| PlannerDeferred.RekeyedPaySim | benchmarks/go-corpus/workload.go:497-521 | the payment signed with the other key is accepted |
| PlannerDeferred.RekeyBackSim | benchmarks/go-corpus/workload.go:497-521 | the rekey back is signed with the current key, accepted, and restores the account's own key |
| PlannerDeferred.GoOfflineSim | benchmarks/go-corpus/workload.go:559-585 | the offline registration is accepted |
| PlannerDeferred.EphOptInSim | benchmarks/go-corpus/workload.go:526-555 | the ephemeral account's opt-in is accepted |
| PlannerDeferred.EphGrantSim | benchmarks/go-corpus/workload.go:526-555 | units that the admin's balance covers go to the ephemeral account, which holds them afterwards |
| PlannerDeferred.EphCloseAssetSim | benchmarks/go-corpus/workload.go:526-555 | closing the holding returns the units to the admin |
| PlannerDeferred.EphClosePaySim | benchmarks/go-corpus/workload.go:526-555 | the ephemeral account owns nothing any more when it closes, so the close is accepted |
| PlannerDeferred.ThrowCallSim | benchmarks/go-corpus/workload.go:589-652 | calls, updates and reconfigurations use the id handed back by the creating block and are accepted |
| PlannerDeferred.AppDeleteSim | benchmarks/go-corpus/workload.go:589-614 | the throwaway app still exists when it is deleted |
| PlannerDeferred.AssetDestroySim | benchmarks/go-corpus/workload.go:618-652 | the creator still holds the whole throwaway asset when it is destroyed |
| PlannerSteps.TakenOnce | benchmarks/go-corpus/workload.go:475-585 | a lifecycle step is pending once, in the round that ends the reservation, and nowhere after it has run |
| PlannerSteps.PhaseReached | benchmarks/go-corpus/workload.go:526-555 | each step of an ephemeral account comes up in exactly the phase it needs, the holding before the account |
| PlannerSteps.LastThrowStep | benchmarks/go-corpus/workload.go:589-652 | after the last step of a throwaway nothing of it is pending |
| PlannerSched.FreeIsIdle | benchmarks/go-corpus/workload.go:174-187 | an account that the picker may return has no pending step |
| PlannerSched.IdleFlags | benchmarks/go-corpus/workload.go:44-57 | a free account is neither frozen, rekeyed, online nor waiting for its grant |
| PlannerRounds.BeginInv | benchmarks/go-corpus/workload.go:655-656 | a new round starts from the invariant once the last block's ids are handed out |
| PlannerRounds.SoFarNext | benchmarks/go-corpus/workload.go:660-697 | group after group: the payset so far executes, every waiting group finds its id at its own offset, every signer has a key, every payment receiver is known |
| PlannerRounds.CommitAllDone | benchmarks/go-corpus/main.go:291-303 | the hand-out by running offset gives every waiting group its own id |
| PlannerSetup.SetupRound | benchmarks/go-corpus/workload.go:223-277 | each of the six setup transactions is accepted by the ledger left by the previous ones, and its onCommit stores the id it created |
| PlannerSetup.SetupDone | benchmarks/go-corpus/workload.go:223-277 | after setup the invariant holds and every genesis account is known |
| Conservation.Conserved | benchmarks/go-corpus/workload.go:38-41 | in every reachable state the ledger's holdings of asset A by accounts, ephemeral accounts and the main application add up to its total |
| Conservation.ActionExact | benchmarks/go-corpus/workload.go:319-343 | the uint64 balance updates of every regular action are the true differences and sums: nothing wraps |
| Conservation.StepExact | benchmarks/go-corpus/workload.go:346-360 | the same for grants and for ephemeral accounts' units: the admin's unsigned balance is the true difference exactly when the admin was not short |
| PlannerSupply.GrantNeedsUnits | benchmarks/go-corpus/workload.go:346-360 | whatever the number of accounts, a grant is accepted exactly when the admin's balance covers it; otherwise the unsigned record wraps |
| PlannerSupply.EphGrantNeedsUnits | benchmarks/go-corpus/workload.go:526-555 | the same for the units lent to an ephemeral account |
| PlannerSupply.InnerNeedsUnits | benchmarks/go-corpus/workload.go:435-445 | whatever the number of rounds, an inner transfer is accepted exactly when the main application still has a unit |
| PlannerCounts.GrantSupply | benchmarks/go-corpus/workload.go:346-360 | within `Fits` the admin's balance covers one more opt-in grant beside all units in flight |
| PlannerCounts.EphSupply | benchmarks/go-corpus/workload.go:526-555 | within `Fits` the admin's balance covers one more ephemeral account; at most two rounds' worth are in flight |
| PlannerCounts.InnerSupply | benchmarks/go-corpus/workload.go:435-445 | within `Fits` the main application has a unit for one more account of the round |
| PlannerRange.StepRange | benchmarks/go-corpus/workload.go:662-666 | whatever the ledger does, a deferred step refers to records that exist, and so do those still pending after it |
| PlannerRange.DrawRange | benchmarks/go-corpus/workload.go:287-308 | no action leaves behind a step that refers to a missing record |
| Workloads.Workload.constructor | benchmarks/go-corpus/workload.go:118-142 | the generator starts as the state before the first setup round |
| Workloads.Workload.Pick | benchmarks/go-corpus/workload.go:174-187 | returns the first of 24 random accounts that is not the admin, not busy, not reserved and satisfies the test, and marks it busy; none exactly when none of the 24 does |
| PlannerOutcome.PicksTwo | benchmarks/go-corpus/workload.go:310-313 | two picks in a row yield two different free accounts that satisfy their tests |
| Workloads.Workload.At | benchmarks/go-corpus/workload.go:189-189 | appends the step to the later round's list |
| Workloads.Workload.Single | benchmarks/go-corpus/workload.go:170-172 | a group of one with the next unused note |
| Workloads.Workload.ActPay | benchmarks/go-corpus/workload.go:310-317 | two free accounts are picked and the first pays the second, signed with the first one's current key; state, plan and tape position afterwards are those of the model's action on the accounts and numbers that the tape draws, and when a pick fails nothing is planned |
| Workloads.Workload.ActAxfer | benchmarks/go-corpus/workload.go:319-329 | the amount is 1 up to the smaller of the balance and 1000, and both records move by it; state, plan and tape position afterwards are those of the model's action on the accounts and numbers that the tape draws, and when a pick fails nothing is planned |
| Workloads.Workload.ActClawback | benchmarks/go-corpus/workload.go:331-343 | one unit moves between two picked holders in the admin's name; state, plan and tape position afterwards are those of the model's action on the accounts and numbers that the tape draws, and when a pick fails nothing is planned |
| Workloads.Workload.ActAssetOptIn | benchmarks/go-corpus/workload.go:346-360 | the opt-in, its reservation and the grant scheduled for the next round; state, plan and tape position afterwards are those of the model's action on the accounts and numbers that the tape draws, and when a pick fails nothing is planned |
| Workloads.Workload.ActInc | benchmarks/go-corpus/workload.go:362-368 | the counter call of an opted-in account; state, plan and tape position afterwards are those of the model's action on the accounts and numbers that the tape draws, and when a pick fails nothing is planned |
| Workloads.Workload.ActAppOptIn | benchmarks/go-corpus/workload.go:370-377 | the opt-in and its record; state, plan and tape position afterwards are those of the model's action on the accounts and numbers that the tape draws, and when a pick fails nothing is planned |
| Workloads.Workload.ActAppCloseOut | benchmarks/go-corpus/workload.go:379-386 | the close-out and its record; state, plan and tape position afterwards are those of the model's action on the accounts and numbers that the tape draws, and when a pick fails nothing is planned |
| Workloads.Workload.ActAppClear | benchmarks/go-corpus/workload.go:388-395 | the clear-state call and its record; state, plan and tape position afterwards are those of the model's action on the accounts and numbers that the tape draws, and when a pick fails nothing is planned |
| Workloads.Workload.ActBoxPut | benchmarks/go-corpus/workload.go:397-414 | a box under the next name, added to the list; state, plan and tape position afterwards are those of the model's action on the accounts and numbers that the tape draws, and when a pick fails nothing is planned |
| Workloads.Workload.ActBoxDel | benchmarks/go-corpus/workload.go:416-431 | nothing when there is no box; else a random box is taken from the list and deleted; state, plan and tape position afterwards are those of the model's action on the accounts and numbers that the tape draws, and when a pick fails nothing is planned |
| Workloads.Workload.ActInner | benchmarks/go-corpus/workload.go:435-445 | the inner call and the caller's extra unit; state, plan and tape position afterwards are those of the model's action on the accounts and numbers that the tape draws, and when a pick fails nothing is planned |
| Workloads.Workload.ActFreeze | benchmarks/go-corpus/workload.go:475-493 | the freeze, the two-round reservation and the scheduled unfreeze; state, plan and tape position afterwards are those of the model's action on the accounts and numbers that the tape draws, and when a pick fails nothing is planned |
| Workloads.Workload.ActRekey | benchmarks/go-corpus/workload.go:497-521 | the rekey signed with the old key, the three-round reservation, the payment and the rekey back; state, plan and tape position afterwards are those of the model's action on the accounts and numbers that the tape draws, and when a pick fails nothing is planned |
| Workloads.Workload.ActCloseOut | benchmarks/go-corpus/workload.go:526-555 | a fresh ephemeral account with its key, its known address and its four later steps; state, plan and tape position afterwards are those of the model's action on the accounts and numbers that the tape draws, and when a pick fails nothing is planned |
| Workloads.Workload.ActKeyreg | benchmarks/go-corpus/workload.go:559-585 | the online registration and the offline one twenty rounds later; state, plan and tape position afterwards are those of the model's action on the accounts and numbers that the tape draws, and when a pick fails nothing is planned |
| Workloads.Workload.ActAppLifecycle | benchmarks/go-corpus/workload.go:589-614 | the creation whose id is stored on commit, and the call, update and deletion; state, plan and tape position afterwards are those of the model's action on the accounts and numbers that the tape draws, and when a pick fails nothing is planned |
| Workloads.Workload.ActAssetLifecycle | benchmarks/go-corpus/workload.go:618-652 | the creation whose id is stored on commit, and the reconfiguration and destruction; state, plan and tape position afterwards are those of the model's action on the accounts and numbers that the tape draws, and when a pick fails nothing is planned |
| Workloads.Workload.ActGroup | benchmarks/go-corpus/workload.go:449-471 | the members are those that the tape draws, joined until the group has its size or the tries are used up |
| PlannerTape.GroupFacts | benchmarks/go-corpus/workload.go:449-471 | a group has at most five members, sent by different accounts that were free before |
| PlannerVerdict.GroupOutcome | benchmarks/go-corpus/workload.go:449-471 | the ledger accepts a drawn group as a whole, or nothing is planned |
| Workloads.Workload.Plan | benchmarks/go-corpus/workload.go:287-308 | the action at each place of the table, as the tape draws it |
| Workloads.Choose | benchmarks/go-corpus/workload.go:674-682 | the scan of the table picks each action for exactly as many random values as its weight, and always finds one |
| Workloads.Workload.RunGrant | benchmarks/go-corpus/workload.go:346-360 | the deferred closure does exactly the model's step: the grant and both records |
| Workloads.Workload.RunUnfreeze | benchmarks/go-corpus/workload.go:475-493 | the deferred closure does exactly the model's step: the unfreeze |
| Workloads.Workload.RunRekeyedPay | benchmarks/go-corpus/workload.go:497-521 | the deferred closure does exactly the model's step: the payment with the other key |
| Workloads.Workload.RunRekeyBack | benchmarks/go-corpus/workload.go:497-521 | the deferred closure does exactly the model's step: signed with the key read before it is reset |
| Workloads.Workload.RunGoOffline | benchmarks/go-corpus/workload.go:559-585 | the deferred closure does exactly the model's step: the offline registration |
| Workloads.Workload.RunEphemeralStep | benchmarks/go-corpus/workload.go:526-555 | the deferred closure does exactly the model's step: opt-in, grant, close of the holding and close of the account |
| Workloads.Workload.RunAppStep | benchmarks/go-corpus/workload.go:589-614 | the deferred closure does exactly the model's step: with the id stored on commit; a deletion marks the app dead |
| Workloads.Workload.RunAssetReconfig | benchmarks/go-corpus/workload.go:618-652 | the deferred closure does exactly the model's step: with the id stored on commit |
| Workloads.Workload.RunAssetDestroy | benchmarks/go-corpus/workload.go:618-652 | the deferred closure does exactly the model's step: with the id stored on commit; marks the asset dead |
| Workloads.Workload.RunScheduled | benchmarks/go-corpus/workload.go:660-667 | runs every step scheduled for the round once and in order, each on the state the previous one left |
| PlannerVerdict.RunsVerdict | benchmarks/go-corpus/workload.go:660-667 | the deferred steps of a round are all accepted, one after the other, exactly when none is short of units |
| Workloads.Workload.FillRound | benchmarks/go-corpus/workload.go:668-690 | the random actions that the tape draws follow, up to the first one after which the round is full or 64 have found no account |
| PlannerVerdict.FillVerdict | benchmarks/go-corpus/workload.go:668-690 | any number of random actions is accepted exactly when none of them is short of units |
| Workloads.Workload.PlanRound | benchmarks/go-corpus/workload.go:655-697 | the plan is never empty, and is the deferred steps followed by the drawn actions |
| Workloads.Workload.PlanSetup | benchmarks/go-corpus/workload.go:657-659 | a setup round plans exactly its closure |
| Workloads.Workload.Commit | benchmarks/go-corpus/workload.go:236-263 | stores the created id where the group's onCommit says |
| Workloads.Workload.HandOut | benchmarks/go-corpus/main.go:291-303 | the loop with the running offset commits each group with the ApplyData at its own place |
| Workloads.Workload.Sign | benchmarks/go-corpus/workload.go:701-724 | an error exactly when some signer's key is missing; AuthAddr is set exactly when the signer is not the sender; a group id only for two or more transactions |
| KnownSets.KnownSet.constructor | benchmarks/go-replay/state.go:98-107 | the genesis allocations, each once |
| KnownSets.KnownSet.Add | benchmarks/go-replay/state.go:109-114 | set semantics with a list that never repeats an address |
| KnownSets.KnownSet.AddBlock | benchmarks/go-replay/state.go:116-129 | adds exactly the receivers of top-level payments and the accounts of created applications up to the second one overall |
| Driver.SetupKnown | benchmarks/go-replay/state.go:116-129 | the setup blocks teach the replay tool exactly what the generator appended: the first two applications are the main and the callee app |
| Submission.Faithful | benchmarks/go-corpus/main.go:238-290 | in every interleaving of driver, verification threads and block notifier, every block is its round's plan in order, and neither the unplanned-transaction alarm nor the order check ever fires |
| Corpora.Delivered | benchmarks/go-corpus/main.go:238-303 | under every interleaving of driver, verification threads and notifier, each committed block is the planned payset of its round, and executing it takes the ledger to the state the generator expects; the driver stops early only on a time-out or a refusal |
| Corpora.IdsOfPlan | benchmarks/go-corpus/main.go:243-256 | a planned round is one the submission protocol accepts, and a block with its groups' ids in order is the round's payset |
| Corpora.IdsIdentify | benchmarks/go-corpus/workload.go:146-160 | no two transactions of a run carry the same note, so ids identify them |
| Submission.OneInFlight | benchmarks/go-corpus/client.go:149-168 | at most one group is ever being verified, and only while the pool lists no committed transaction |
| Submission.CountTells | benchmarks/go-corpus/client.go:149-168 | the awaited pool size is reached exactly when the posted group stands in the pool behind all earlier ones, and is never exceeded |
| Submission.MoveKeeps | benchmarks/go-corpus/client.go:136-221 | every move of driver or node keeps the invariant: the pool is the concatenation of the acknowledged groups |
| Submission.Completes | benchmarks/go-corpus/main.go:238-303 | between rounds there is always a way to the next block, and it is the planned one |
| Submission.EmptyWaitNeeded | benchmarks/go-corpus/client.go:178-186 | without waiting for the empty pool a committed transaction still listed makes the driver commit a block that lacks a group |
| Submission.GroupWaitNeeded | benchmarks/go-corpus/client.go:149-153 | two groups in verification at once can end up in the pool in the other order |
| Bytes.Utf8Exact | scripts/bench/rest_lib.py:468-468 | strict UTF-8 decoding accepts a byte string exactly when it is the encoding of its result |
| Bytes.FromToBE | scripts/bench/rest_lib.py:440-441 | big-endian fields read back the number written |
| KeyOrder.SortKeys | scripts/bench/rest_lib.py:425-425 | the keys of a dict, each once, ascending by code point |
| MsgPack.TokenLocal | scripts/bench/rest_lib.py:457-491 | a token is determined by its own bytes, wherever they stand |
| MsgPackReader.Reader.Take | scripts/bench/rest_lib.py:433-438 | the next bytes, or the truncation error with the cursor unmoved |
| MsgPackReader.Reader.Uint | scripts/bench/rest_lib.py:440-441 | a big-endian field at the cursor |
| MsgPackReader.Reader.Array | scripts/bench/rest_lib.py:443-444 | the loop over elements reads what the specification reads, errors included |
| MsgPackReader.Reader.Map | scripts/bench/rest_lib.py:446-455 | the loop over pairs, with later keys overriding and unhashable keys refused |
| MsgPackReader.Reader.Value | scripts/bench/rest_lib.py:457-508 | one value of any type byte, or the same error |
| MsgPackReader.MsgpackDecode | scripts/bench/rest_lib.py:511-520 | terminates on every byte string with one value that spans it, or with the error |
| MsgPackLaws.RoundTripAt | scripts/bench/rest_lib.py:384-426 | reading where a value was written returns it and stops at its last byte, whatever stands around it |
| MsgPackLaws.RoundTrip | scripts/bench/rest_lib.py:384-426 | decoding an encoding returns the value |
| MsgPackLaws.PrefixFree | scripts/bench/rest_lib.py:384-426 | no encoding is a prefix of another; the encoding is injective |
| MsgPackCanonical.Canonical | scripts/bench/rest_lib.py:421-425 | on the wire the head of a dict is followed by all its keys, each once, in ascending order |
| MsgPackLaws.Minimal | scripts/bench/rest_lib.py:384-426 | no byte string that decodes to a value is shorter than its encoding |
| StateProofUnpacker.Unpacker.VisitTxn | scripts/capture_mainnet_corpus.py:711-731 | one transaction map: where its `sp` entry lies and whether its type says `stpf`, or the refusal |
| StateProofUnpacker.Unpacker.Visit | scripts/capture_mainnet_corpus.py:698-731 | the nested scan records one cut per top-level state-proof transaction |
| StateProofUnpacker.CutBefore | scripts/capture_mainnet_corpus.py:732-734 | cutting from the last to the first keeps every recorded offset valid |
| StateProofUnpacker.StripStateProofBodies | scripts/capture_mainnet_corpus.py:692-742 | the result is the input with the cut ranges removed and the map headers decremented, or the first refusal; the count is the number of cuts |
| MsgTree.ParseSound | scripts/capture_mainnet_corpus.py:698-731 | the structure read from a byte string flattens back to exactly its bytes |
| MsgTree.ParseFlat | scripts/capture_mainnet_corpus.py:732-742 | a well-framed structure is read back wherever its bytes stand |
| MsgTree.DecodeIsMeaning | scripts/bench/rest_lib.py:457-520 | decoding is reading the structure and taking its meaning |
| StateProofLaws.WalkStrips | scripts/capture_mainnet_corpus.py:698-742 | the recorded cuts, made together, turn the bytes into exactly the bytes of the structure without the `sp` entries |
| StateProofMeaning.StripStructure | scripts/capture_mainnet_corpus.py:732-742 | byte for byte: the output is the edited structure, and every byte outside the cuts and the edited headers is unchanged, also after the response and with invalid UTF-8 |
| StateProofMeaning.TxnMeaning | scripts/capture_mainnet_corpus.py:711-731 | for one transaction the decoded map loses exactly `sp` if and only if the map names `sp` once |
| StateProofMeaning.StripMeaning | scripts/capture_mainnet_corpus.py:692-742 | the edited structure still decodes, and it decodes to the decoded original without the `sp` entries if and only if no state-proof transaction that the decoded original shows names `sp` twice |
| StateProofMeaning.StripPreserves | scripts/capture_mainnet_corpus.py:692-742 | the output decodes, and it decodes to the decoded input with the `sp` entry removed from every top-level `stpf` transaction and nothing else changed, if and only if none of those that the decoded input shows names `sp` twice |
| StateProofScan.WalkAccepted | scripts/capture_mainnet_corpus.py:698-741 | on a response that decodes, the strip goes through exactly when the path leads through maps and arrays to maps and every state-proof transaction on it has an `sp` entry under a header that can be shortened |
| StateProofScan.ProofBodySurvives | scripts/capture_mainnet_corpus.py:692-742 | a concrete response with two `sp` entries in one transaction: the strip accepts it, the first entry survives, and the output does not decode to the expected document |
| JsonDiffs.JsonDiff | scripts/bench/rest_lib.py:197-226 | the appended list is the specified one, for every order of keys |
| JsonDiffs.EmptyIffEqual | scripts/bench/rest_lib.py:197-226 | no difference is reported exactly when the two documents are equal, types included |
| JsonDiffs.DiffIsPatch | scripts/bench/rest_lib.py:197-226 | replaying the reported differences on go's document yields rust's document |
| JsonDiffs.DiffInjective | scripts/bench/rest_lib.py:197-226 | two documents with the same report against a third are equal |
| DocPaths.DiffPrinted | scripts/bench/rest_lib.py:203-225 | the printed path of every difference is the dotted text of its place, with `$` for the whole document |
| DocPaths.PathIsPlace | scripts/bench/rest_lib.py:172-176 | the printed path splits back into the place's own segments exactly when no segment contains a dot and the first of several is not empty |
| DocPaths.ExactMatch | scripts/bench/rest_lib.py:172-176 | a path without a star matches itself and nothing else, in particular nothing below it |
| DocPaths.JoinSplit | scripts/bench/rest_lib.py:175-175 | splitting at dots loses nothing |
| DocPaths.DropAbsent | scripts/bench/rest_lib.py:143-169 | dropping a path that the document does not have changes nothing |
| DocPaths.DropPresent | scripts/bench/rest_lib.py:143-169 | dropping a path that fits some place changes the document |
| DocPaths.DroppedUnseen | scripts/bench/rest_lib.py:143-169 | documents that differ only at a dropped place are equal after dropping |
| DocPaths.SparedKept | scripts/bench/rest_lib.py:152-169 | everything else stays: a place that parts ways with the dropped path holds the same value afterwards, at most one list index further up |
| Gates.DiffsSpec | scripts/bench/rest_lib.py:242-274 | two responses have no difference exactly when status and media type agree and the bodies agree: JSON as documents without the volatile fields, everything else byte for byte |
| Gates.Gate | scripts/bench/rest_lib.py:283-317 | every returned error is due and every due error is returned; there is none exactly when both nodes answered exactly the requested set, every difference is excused by an entry in force, and every such entry for a requested endpoint excuses something |
| Gates.NothingDue | scripts/bench/rest_lib.py:283-317 | no error is due exactly when the responses pass |
| Gates.Judge | scripts/bench/rest_lib.py:307-312 | the unexcused differences of one request, and exactly the entries that excused one |
| History.Finder.Prescan | scripts/capture_mainnet_corpus.py:339-357 | the cache holds, for each account, the record of the newest round in the window that wrote it, and nothing for the others |
| History.Finder.FindAccount | scripts/capture_mainnet_corpus.py:421-439 | with candidates newest first and complete below the window, the record of the greatest round below `before` that wrote the account, and none exactly when no round did, whatever earlier calls cached |
| History.GlobalRounds | scripts/capture_mainnet_corpus.py:283-307 | the windows follow one another without gap or overlap from `before - 1` to `created_at`, each is read page by page, and what is yielded is every matching round |
| History.WindowRounds | scripts/capture_mainnet_corpus.py:293-303 | following the tokens page by page collects exactly the rounds of the window's transactions |
| History.AccountRounds | scripts/capture_mainnet_corpus.py:260-280 | the pages' transactions, newest first, yield each round once, strictly descending |
| History.MatchingAll | scripts/capture_mainnet_corpus.py:283-307 | every matching round exactly once, strictly descending |
| History.Covered | scripts/capture_mainnet_corpus.py:283-307 | k windows that stop short of `created_at` have covered 2^(k+1) - 2 rounds |
| History.BoxKeys | benchmarks/go-replay/state.go:297-336 | the newest-first scan runs only on an empty committed store and then yields exactly the boxes live after applying the deltas oldest to newest, each once; it errs exactly when a row is committed or a delta is missing |
| History.LiveByLast | benchmarks/go-replay/state.go:315-336 | a key is live after the forward fold exactly when the last delta to touch it set it |
| Binomial.Absorb | scripts/bench/report.py:89-89 | the division in the step along a row of binomial coefficients is exact |
| Binomial.RowCounts | scripts/bench/report.py:84-89 | the running sum counts the sign patterns with fewer than k ones |
| Binomial.PatternsAll | scripts/bench/report.py:63-69 | the patterns counted are all sign patterns of the length, each once |
| MedianCI.Rank | scripts/bench/report.py:78-92 | the loop keeps the coefficient and the partial row sum and returns the largest admissible rank up to n/2, with its coverage |
| MedianCI.Largest | scripts/bench/report.py:63-69 | no larger rank is admissible at all |
| MedianCI.CoverageCounts | scripts/bench/report.py:92-92 | the coverage is the exact share of sign patterns with at least r samples on each side |
| MedianCI.CoversIffSigns | scripts/bench/report.py:95-108 | the interval of rank r covers a point exactly when at least r samples lie at or below it and at most all but r strictly below; for a point that is none of the samples this is a matter of the sign pattern alone |
| MedianCI.MedianInterval | scripts/bench/report.py:95-108 | the interval holds the sample median, its coverage is that share and at least 1 - alpha, and there is none exactly when even the full range covers too rarely |
| MedianCI.SixNeeded | scripts/bench/report.py:98-100 | at 95% the smallest sample with an interval has six elements |
| MedianCI.Summarize | scripts/bench/report.py:111-128 | the reported spread is the interval with its coverage, or the full range exactly when there is no interval, and always holds the median |
| MedianCI.VerdictSound | scripts/bench/report.py:135-148 | a side is called faster exactly when its whole spread lies on the better side of the other's, and inconclusive exactly when the spreads share a point |
| Monitor.Classify | ops/mainnet-soak/monitor.py:293-431 | the loops compute the specified verdict |
| Monitor.StatusMeans | ops/mainnet-soak/monitor.py:293-431 | each status read off the trace; `stuck` exactly when the last sample is reachable and unstalled, every reachable sample since some point shows its signature, that point lies at least the allowance back, and the peer was seen at two rounds since |
| Monitor.WalkFrozen | ops/mainnet-soak/monitor.py:368-383 | the tracked index is the earliest point since which all reachable samples show the last signature |
| Monitor.SilenceIgnored | ops/mainnet-soak/monitor.py:372-379 | a poll that nobody answered, anywhere before the last sample, does not change the verdict unless the stream ends stalled |
| Monitor.LenientIsSafe | ops/mainnet-soak/monitor.py:385-406 | raising any allowance never turns `ok` into a halt |
| Monitor.WindowsExclusive | ops/mainnet-soak/monitor.py:180-257 | the downloading, verifying and post-verify windows exclude each other |
| Monitor.PeerAdvancing | ops/mainnet-soak/monitor.py:260-272 | true exactly when the peer was seen at two different rounds in the window |
| Monitor.MovedIsRose | ops/mainnet-soak/monitor.py:260-272 | this and an increase differ exactly when the rounds seen never rise from one to the next and the last is below the first |
| Monitor.StuckIsDocumented | ops/mainnet-soak/monitor.py:408-431 | the verdict `stuck` agrees with its documentation, that the peer's round rose since the signature froze, unless the peer only fell since then |
| Monitor.FallingPeerCounts | ops/mainnet-soak/monitor.py:260-272 | a stream of two samples that is called `stuck` though the peer went from 7 to 5 |
| Collector.Collect | ops/mainnet-soak/monitor.py:1075-1142 | returns at the first iteration that has something to report, with exactly that report |
| Collector.FailureIsReal | ops/mainnet-soak/monitor.py:1110-1137 | a node failure is reported only for a dead process or for an unreachable spell at least as old as its grace |
| Collector.DeathIsFinal | ops/mainnet-soak/monitor.py:1082-1102 | a confirmed-dead process ends the run in the same iteration, as a node failure |
| Collector.CapEnds | ops/mainnet-soak/monitor.py:1116-1139 | the loop returns no later than the first iteration at or past the duration cap |
| PhaseTracking.PhaseTracker.Observe | scripts/bench/catchup_lib.py:220-242 | the fields say exactly what the samples so far amount to: first sightings, completion, head and the clear counter; completion and head are latched once |
| PhaseTracking.PhaseTracker.ObserveLag | scripts/bench/catchup_lib.py:244-249 | the head is recorded once, only after completion and within the slack |
| PhaseTracking.PhaseTracker.Aborted | scripts/bench/catchup_lib.py:214-218 | aborted exactly when a catchpoint was seen, the catchup is not done and at least three cleared samples stand at the end |
| PhaseTracking.PhaseTracker.PhasesMean | scripts/bench/catchup_lib.py:254-273 | each duration is the time between the first sightings that bound its phase, with an unseen stage taking no time, and is absent exactly when one of them is |
| PhaseTracking.PhaseTracker.Telescopes | scripts/bench/catchup_lib.py:254-273 | at the head all four phase durations exist and add up to the total |
| PhaseTracking.PhaseTracker.NonNegative | scripts/bench/catchup_lib.py:261-273 | with times and stages that never go backwards no phase duration is negative |
| PhaseTracking.DoneIsFirst | scripts/bench/catchup_lib.py:230-240 | completion is the first sample without a catchpoint, after one was seen, that has the label's round |
| PhaseTracking.FirstIsFirst | scripts/bench/catchup_lib.py:223-227 | a stage's entry is the time of its first sample |
| HashSampling.SampleShape | scripts/bench/catchup_lib.py:318-330 | exactly min(n, cap) rounds of the range, strictly ascending, with the last one and from two on with the first |
| HashSampling.SampleGaps | scripts/bench/catchup_lib.py:329-330 | neighbouring sampled rounds are the step apart, rounded down or up |
| HashSampling.SortedAlready | scripts/bench/catchup_lib.py:330-330 | sorting the sampled rounds as a set changes nothing |
| HashSampling.OldestAvailable | scripts/bench/catchup_lib.py:333-345 | an available round whose predecessor is not; the least available one when availability is a suffix; none exactly when the last is unavailable; logarithmically many probes |
| HashGates.HashGate | scripts/bench/catchup_lib.py:433-456 | nothing is reported exactly when some round was compared and both sides gave the same hash for every sampled round; each report names the first round it is about and the exact counts, and nothing that is the case goes unreported |
| HashGates.CollectHashes | scripts/bench/catchup_lib.py:540-564 | the start moves exactly when the holes are the oldest samples and there are some, to right after the last hole; the range is given up exactly when no sample is left or it moved max_trims + 1 times; else the hashes are those of the last attempt |
| HashGates.MovedPast | scripts/bench/catchup_lib.py:560-562 | a move passes exactly the holes: below the new start every sample was one, from it on none |
| HashGates.GateRange | scripts/bench/tiers/catchup.py:599-613 | the collected range passes the gate exactly when both sides gave the same hash at every sampled round of the range finally used; at most max_trims moves led there, and every sampled round left behind was missing |
| Bytecode.DecodeFlat | fuzz/fuzz_targets/fuzz_teal_program.rs:106-180 | a linear decode of emitted code finds exactly the emitted instructions |
| Bytecode.PatchBranch | fuzz/fuzz_targets/fuzz_teal_program.rs:202-205 | overwriting the two displacement bytes changes that displacement and no other instruction |
| Bytecode.Int16Exact | fuzz/fuzz_targets/fuzz_teal_program.rs:202-203 | a displacement in range survives the cast and the big-endian bytes |
| Emitters.Emitter.Preamble | fuzz/fuzz_targets/fuzz_teal_program.rs:66-92 | the header declares between one and four integers and up to three byte strings, and reads back |
| Emitters.Emitter.EmitOne | fuzz/fuzz_targets/fuzz_teal_program.rs:106-180 | each choice appends the code of one well-formed instruction, whose constant reference is declared, to those emitted before; a branch's displacement position is recorded |
| Emitters.Emitter.PatchOne | fuzz/fuzz_targets/fuzz_teal_program.rs:184-206 | the branch's displacement is set to land on the target, and no other instruction changes |
| Emitters.Emitter.PatchAll | fuzz/fuzz_targets/fuzz_teal_program.rs:182-206 | afterwards every branch lands inside the body, and the instructions are the emitted ones up to displacements |
| Emitters.Program | fuzz/fuzz_targets/fuzz_teal_program.rs:65-209 | for every choice sequence: the header reads back, the body decodes to one to forty well-formed instructions, every constant reference is declared, and every branch lands inside the body |

## Left out

- Algo amounts, fees, rewards and minimum balances in the ledger: they need protocol constants that the repository does not contain. The draws for payment amounts and box contents are made on the tape, their values are not used.
- Validity windows, genesis fields, group hashes, signatures and addresses: keys, addresses and notes are distinct symbols; a group id is a flag.
- Transactions from outside the plan in the pool: the driver's alarms exist for them; the submission model has only planned groups, rejections and time-outs.
- Floats in decoded documents: they are kept as their bits, so equality across widths, of zeros with different signs and of NaN is not Python's.
- Dicts with keys that are not strings in the MessagePack writer, which only ever writes string keys here, and Python's recursion limit on deep nesting.
- The `msgpack` package's streaming unpacker: modelled by the same reader, with its header and skip calls on top.
- The JSON parser, the text of non-string keys, content-type parsing and allowlist validation of the gate: parameters or already validated input.
- `find_part` and the tip approximations of the pre-state finders, and retries against the indexer, whose answers are taken as given.
- The normal approximation above 1000 samples, mean and standard deviation, and rounding of floating-point numbers in reports: exact rationals are used throughout.
- Histogram, percentile and summary helpers of the monitor, log scanning and issue filing.
- Rounding of durations to milliseconds, the replay rate and the `progressed` flag of the phase tracker.
- Running out of input in the fuzzer (the generator then gives up), and the second fuzzer with the same emitter.
- HTTP, Docker, SQLite, subprocess and file handling everywhere.
- Collector.Collect: the polls are a finite stream whose last one is at or past the duration cap, which is all that is asked of the clock.
- In-place deletion by `_drop` on its deep copy: modelled on values, since decoded documents share no parts.
