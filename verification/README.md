# Slot-game settlement and the services around it

A Dafny model of the settlement core of a slot game, the wallet ledger behind it, and the small protocols that keep both
durable, with proofs about all inputs, all runs and all interleavings. `dafny verify dfyconfig.toml` checks it.

**The settlement core.** A spin draws a three-reel grid, awards every left-to-right path of matching symbols, opens Vaults,
upgrades them in King Spin rounds, settles the Rage meter and the wheel, and projects everything onto the win cap of the
whole game. An independent validator then derives the result again and refuses whatever does not fit. Randomness is a tape
of numbers: every draw takes the next one modulo its bound, and an exhausted tape fails, so that a tape stands for any
random stream.
- The draws write cells, swap candidates and upgrade multipliers in place; each method is tied to a function of the tape
  (`*Sample`), up to the whole spin in `SpinSamples`, whose draws determine the outcome (`SpinDetermined`). `SpinOdds`,
  `KingOdds` and `ShuffleOdds` count the draws that lead each decision each way, against the numbers of the definition.
- What the draws build is described once (`RawSpins`, `SpinShape`); `EngineCompleteness` and the modules it rests on show
  that its capped projection satisfies the validator's rules (`OutcomeRules`).
- The validator's loops (`PathChecks`, `EventChecks`, `VaultChecks`, `KingChecks`, `KingResults`, `FeatureChecks`,
  `AwardChecks`, `OutcomeChecks`) decide exactly those rules, and the engine calls them. What the rules guarantee of an
  outcome from any source is proved beside them: its money in `AwardChecks`, its Vaults in `AcceptedVaults` and
  `AcceptedUpgrades`, its meter, wheel, counters and wins in `AcceptedFeatures`, and a gap in `UnstartedFeatures`.
- `WaysEnumeration` to `WaysForBet` and `WaysExact` cover the ways awards and their largest-remainder scaling; `WaysMeaning`
  says what they pay of the cells alone.
- `ArithmeticBounds` covers the overflow bound of the definition, `ConfigChecks` the definition check, `WinCap` the cap, and
  `GameCycle` a whole game: its budget, its end and its completion event.

**The wallet.** `WalletLedger` interleaves the steps of apply, rollback and lookup transactions over committed rows and two
kinds of locks. Operation, rejection and rollback rows are keyed by their IDs, as the inserts assume; a commit fails on a
rejection or rollback row that is already there. Lock keys are hashes, and colliding operations only wait for each other.
`WalletSafety` proves what every run keeps, `WalletGrounds` what each decision rests on, and `SerialWallet` and
`SerialReversals` that a transaction nobody disturbs is one sequential decision.

**Credential rotation.** `ValkeyRotation` decides which plans are accepted and says what every run of them keeps.

**Durable files.** `DefinitionFiles` and `DefinitionRotation` model the two-file rotation on a disk that may lose any subset
of its unsynced directory updates; every intermediate disk is recorded. `AuditRecords` and `AuditLog` model the segmented
log as bytes, with the index a restart rebuilds.

**Small structures.** `OutboxDispatcher`, `AdmissionLimiter` with `AdmissionExactly`, `NonceStore` and `SimulationRng`.

## Model

| member | source | states |
|---|---|---|
| `Engine.GameEngine.Spin` | slots-game/server/internal/game/engine.go:31-186 | On an accepted input the result, success or failure, is the one the random tape fixes, and the tape is left where the draws end; every success passes the whole validator and hands on a state accepted at the same bet; a cancelled context, a refused bet and a refused state each give their own error, and nothing else fails but an exhausted tape, a full Rage meter and Vault rewards too heavy for the machine integer |
| `EngineCompleteness.RawSpinIsValid` | slots-game/server/internal/game/outcome.go:19-123 | Completeness: whatever the draws build, once capped, satisfies every rule of the independent validator, and its next state is one the engine accepts |
| `SpinDetermined.DrawsDetermine` | slots-game/server/internal/game/engine.go:31-186 | The draws of a spin determine its outcome: two outcomes built on the same grid, Vault events and Rage draws are equal |
| `VaultOverflow.OverflowExactly` | slots-game/server/internal/game/engine.go:353-381 | For an accepted definition and input some random stream ends in the Vault weight overflow if and only if the mode is Expansion, money and free-spin weights together leave the machine integer, the middle reel can yield a Vault and the unlock chance is positive |
| `VaultOverflow.MeterFullExactly` | slots-game/server/internal/game/engine.go:86-105 | A spin ends at the Rage meter if and only if it is a base spin that settles one or two Surge symbols for which the meter has no room |
| `HeavyVaults.AcceptedButTooHeavy` | slots-game/server/internal/game/config.go:179-352 | A concrete definition passes the whole definition check although its Expansion reward weights leave the machine integer |
| `HeavyVaults.HeavySpin` | slots-game/server/internal/game/engine.go:353-381 | The failing input run: on that definition a concrete accepted Expansion spin returns the weight overflow |
| `HeavyVaults.NoExpansionSpin` | slots-game/server/internal/game/engine.go:208-233 | No random stream lets any Expansion spin of that definition succeed |
| `Engine.GameEngine.Settle` | slots-game/server/internal/game/engine.go:175-185 | Neither the win cap nor the validator can refuse what the draws built |
| `Engine.NewEngine` | slots-game/server/internal/game/engine.go:17-25 | An engine is made exactly for the definitions that pass the check |
| `GridDraws.GenerateGrid` | slots-game/server/internal/game/engine.go:587-626 | The grid is the one the tape holds, cell by cell and reel by reel, and the tape is left after the last cell; free spins settle no Surge and a base grid at most three; only 3 to 8 rows are accepted |
| `GridDraws.DrawCell` | slots-game/server/internal/game/engine.go:595-623 | One cell from its reel's weights, without Surge in free spins and after three have settled, with a drawn multiplier if it is Wild |
| `GridDraws.ReelsDrawn` | slots-game/server/internal/game/engine.go:587-626 | Any grid a tape yields has the symbols of its reels, at most three Surge symbols in the base game and none in free spins, and only an exhausted tape yields no grid |
| `GridDraws.DrawnGridOk` | slots-game/server/internal/game/outcome.go:237-295 | A drawn grid passes the validator's grid check, takes its Wilds from the table and shows no Vault reward yet |
| `RandomPicks.PickWeighted` | slots-game/server/internal/game/engine.go:628-689 | A weighted pick selects exactly the entry its draw falls into; the fall-through error is unreachable |
| `RandomPicks.PickGreater` | slots-game/server/internal/game/engine.go:383-411 | Picking above a value is picking from the filtered list, or nothing when the list is empty |
| `RandomPicks.PickVaultReward` | slots-game/server/internal/game/engine.go:353-381 | A Vault reward is drawn from the money table followed by the free spin, and refused exactly when the weights overflow |
| `RandomPicks.Chance` | slots-game/server/internal/game/engine.go:691-700 | Certain and impossible chances use no randomness, others compare one draw of ten thousand |
| `Weights.DrawsMatchWeight` | slots-game/server/internal/game/engine.go:628-689 | An entry is selected by exactly as many draws as its weight |
| `Weights.AboveKeeps` | slots-game/server/internal/game/engine.go:383-411 | The filtered list holds exactly the entries above the value |
| `RandomPicks.VaultRewardsSelect` | slots-game/server/internal/game/engine.go:371-380 | In the combined table the draws below the money total select a multiplier and the rest the free spin |
| `VaultDraws.OpenVault` | slots-game/server/internal/game/engine.go:222-266 | One Vault as the tape has it: money at the bet, or in Expansion a free spin until the configured maximum and a cap notice after; the overflow exactly when the rewards are too heavy |
| `VaultDraws.OpenVaults` | slots-game/server/internal/game/engine.go:220-269 | The whole unlock sequence as the tape has it, each reveal followed by its one result, written into the grid, summed and counted; the overflow exactly when rewards are too heavy and there is a Vault |
| `VaultSection.ResolveVaults` | slots-game/server/internal/game/engine.go:193-270 | The Vault section as the tape has it, locked, opened or King Spin, changing only what Vaults show; the overflow exactly when rewards are too heavy, a Vault has landed and it unlocks |
| `VaultWrites.WinsIgnoreVaultRewards` | slots-game/server/internal/game/engine.go:222-254 | Rewards written into Vault cells never change the ways awards |
| `KingDraws.UpgradeOne` | slots-game/server/internal/game/engine.go:298-318 | An upgrade as the tape has it: an entry above the multiplier, doubled if it is a base jackpot and luck allows, always larger and within the definition's liability |
| `KingDraws.UpgradeRound` | slots-game/server/internal/game/engine.go:296-323 | One round over all Vaults in place, as the tape has it, building a chain the validator accepts |
| `KingDraws.UpgradeRounds` | slots-game/server/internal/game/engine.go:288-329 | The rounds as the tape has them: a lost chance, an idle round or the configured maximum ends them, and each is announced with its exact size |
| `KingAwards.ResolveKingVaults` | slots-game/server/internal/game/engine.go:272-351 | A whole King Spin as the tape has it: reveals, rounds, and final awards that pay, show and write where each chain ended |
| `RageDrawing.PickTransformCells` | slots-game/server/internal/game/engine.go:492-506 | The cells of a partial shuffle of all cells without Surge, as the tape has them: distinct, on the grid, none of them Surge; refused exactly when there are too few |
| `RageDrawing.SurgeTriggers` | slots-game/server/internal/game/engine.go:702-715 | Three Surge symbols always trigger; two trigger when the draw is below the two-Surge chance of the definition, one when it is below the one-Surge chance, none never |
| `RageDrawing.SpinWheel` | slots-game/server/internal/game/engine.go:138-171 | The drawn prize pays its bet multiple or starts its feature, within the definition's liability |
| `RageSection.SettleRage` | slots-game/server/internal/game/engine.go:86-173 | The Rage section as the tape has it; its collection event reports a trigger exactly when the first draw is below the chance of one or of two Surge symbols; it fails at the meter exactly when one or two Surge symbols do not fit it |
| `SpinOdds.SurgeOdds` | slots-game/server/internal/game/engine.go:702-715 | Of the ten thousand draws, as many trigger the wheel as the one-Surge chance says for one settled Surge, as the two-Surge chance says for two, all for three and none for none |
| `SpinOdds.UnlockOdds` | slots-game/server/internal/game/engine.go:208-217 | Outside King Spin the Vaults stay locked on all of the ten thousand draws but as many as the unlock chance |
| `SpinOdds.FreeSpinOdds` | slots-game/server/internal/game/engine.go:353-381 | Of the draws for an Expansion Vault as many give a free spin as its weight, and in the base game none does |
| `SpinOdds.ValueOdds` | slots-game/server/internal/game/engine.go:628-689 | A table of distinct values yields each of them on as many draws as its weight |
| `SpinOdds.CellOdds` | slots-game/server/internal/game/engine.go:595-623 | A cell shows each symbol of its reel on as many draws as its weight; Surge is barred in free spins and once a base grid has settled three, and then on no draw |
| `KingOdds.RoundsEnd` | slots-game/server/internal/game/engine.go:288-331 | King Spin rounds end for one of three reasons: all the definition allows were played, no Vault can rise any more, or the last draw lost the upgrade chance |
| `KingOdds.UpgradeOdds` | slots-game/server/internal/game/engine.go:288-295 | While a round is left and a Vault can rise, the next round is given up on all of the ten thousand draws but as many as the upgrade chance |
| `KingOdds.DoublingOdds` | slots-game/server/internal/game/engine.go:305-318 | A jackpot that an upgrade reaches is doubled on as many of the ten thousand draws as the doubling chance, anything else on none |
| `ShuffleOdds.EveryChoiceOnce` | slots-game/server/internal/game/engine.go:492-506 | Every choice of distinct cells without Surge, in every order, is made by exactly one sequence of draws |
| `FeatureStates.RageLevelBracket` | slots-game/server/internal/game/engine.go:467-478 | The level of a count is the place of the last threshold it reaches |
| `WaysExact.SymbolWinExact` | slots-game/server/internal/game/ways.go:46-148 | A symbol wins exactly when every reel shows it or a Wild; the paths are the row triples that do, once each, each paying the award times the multiplier of a Wild on its middle cell, a plain Wild counting once; the award is their sum and the cells are the union of their cells |
| `WaysEvaluation.EvaluateWays` | slots-game/server/internal/game/ways.go:16-148 | One win for each paying symbol that every reel shows as itself or as a Wild, and no other; its paths run exactly through the cells that show either; the sum is that of the wins; the call fails exactly when the grid or paytable is illegal or the sum leaves int64 |
| `WaysMeaning.WinsPaid` | slots-game/server/internal/game/ways.go:46-148 | The wins of a grid said of its cells alone: the symbol test with Wild substitution, the exact triples, and pay times the middle multiplier summed over them |
| `WaysForBet.EvaluateWaysForBet` | slots-game/server/internal/game/ways.go:155-185 | The same wins at a bet: cells, paths and multipliers stay, each amount is rounded to nearest and shared out over its paths exactly; the call fails exactly when some amount leaves int64 |
| `PathSharing.ScalePathAwards` | slots-game/server/internal/game/ways.go:194-258 | Scaling in place gives every path its floor share and one unit more to the largest remainders; with a rounded aggregate neither error exit is reachable |
| `LargestRemainder.ScaledSumExact` | slots-game/server/internal/game/ways.go:205-233 | Scaled paths sum exactly to the aggregate whenever the leftover is between none and one unit a path |
| `LargestRemainder.AggregateShareable` | slots-game/server/internal/game/ways.go:219-225 | The rounded aggregate always leaves between none and one unit a path, so both sharing errors are unreachable |
| `LargestRemainder.ServedInOrder` | slots-game/server/internal/game/ways.go:226-233 | Each path gets its floor or one more, larger remainders first and earlier paths first among equals |
| `LargestRemainder.BaseWithinAmount` | slots-game/server/internal/game/ways.go:241-256 | The shown base of a multiplied path never exceeds its amount and is zero only with it |
| `PathSharing.SortedInOrder` | slots-game/server/internal/game/ways.go:226-228 | The stable sort by remainder is the order in which leftover units are served |
| `WaysScaling.ScaleAward` | slots-game/server/internal/game/ways.go:260-277 | Rounding to the nearest unit, failing exactly when the product leaves int64 |
| `WaysScaling.RoundedNearest` | slots-game/server/internal/game/ways.go:260-277 | The rounded amount is the nearest whole number, the upper one of two, and at least one for a positive award |
| `Money.SafeMul` | slots-game/server/internal/game/ways.go:289-297 | Checked multiplication succeeds exactly when neither operand is negative and the product fits int64 |
| `ArithmeticBounds.WaysNeverOverflow` | slots-game/server/internal/game/config.go:364-449 | On any legal grid with Wilds of the table and at any legal bet, no amount of the ways evaluation leaves int64 and the total stays within the definition's liability |
| `ArithmeticBounds.CheckArithmeticBounds` | slots-game/server/internal/game/config.go:364-449 | The bound check accepts exactly the definitions whose largest ways, Vault and wheel awards fit int64, alone and together |
| `ConfigChecks.CheckConfig` | slots-game/server/internal/game/config.go:179-352 | The definition check accepts exactly the legal definitions |
| `ConfigChecks.CheckEntries` | slots-game/server/internal/game/config.go:507-549 | A weighted table is accepted exactly when it is not empty, its weights are positive with a sum in range, and no value occurs twice |
| `ConfigChecks.CheckExpansionRows` | slots-game/server/internal/game/config.go:297-309 | Six distinct heights between three and eight are required, and they are all of them |
| `WinCap.SpinRecord.ApplyWinCap` | slots-game/server/internal/game/win_cap.go:14-87 | The cap rewrites wins, awards, notice, completion and next state to the closed form of the capped outcome, and fails exactly when the cap or the carried win is illegal |
| `WinCap.ProjectWinsToBudget` | slots-game/server/internal/game/win_cap.go:89-115 | Wins and their paths are paid in order until the budget is used up |
| `AwardChecks.CheckCappedAwards` | slots-game/server/internal/game/win_cap.go:129-193 | The money check accepts exactly the outcomes whose wins, awards, total and notice are the recomputed ones clipped in order to the remaining budget |
| `AwardChecks.AcceptedMoney` | slots-game/server/internal/game/win_cap.go:129-193 | Any accepted outcome, from any source, pays at path, win and spin level exactly what grid and definition award clipped to the budget, and carries the cap notice exactly when that sum is positive and reaches it |
| `GameCycle.GamePaysItsCap` | slots-game/server/internal/game/win_cap.go:14-87 | Over a base spin and all free spins it starts, after every spin the game has paid the smaller of its cap and everything awarded so far, and the carried win is that amount |
| `GameCycle.GameContinues` | slots-game/server/internal/game/engine.go:537-585 | Every state a game passes through is accepted as the next input at the same bet |
| `GameCycle.FreeSpinLowers` | slots-game/server/internal/game/engine.go:42-58 | Each free spin lowers the measure of spins left by exactly one |
| `GameCycle.GameEnds` | slots-game/server/internal/game/engine.go:222-246 | A game has at most the configured maximum of free spins |
| `GameCycle.CompletionReportsGame` | slots-game/server/internal/game/win_cap.go:69-79 | The completion event reports the free spins actually played and everything the game paid |
| `OutcomeChecks.ValidateOutcome` | slots-game/server/internal/game/outcome.go:106-123 | The validator, in its order, accepts exactly the outcomes that satisfy all the rules; the rows below say what those rules guarantee |
| `AcceptedVaults.AcceptedShows` | slots-game/server/internal/game/outcome.go:420-556 | Whoever made an outcome that passes the structural rules, as every accepted one does, each Vault cell shows exactly what its one result names: the multiplier and prize of its one award, which pays the bet times it unless the cap is announced, or the free-spin prize with one free-spin result in Kong Quest; a locked Vault shows nothing and nothing is told of it |
| `AcceptedVaults.AcceptedOrder` | slots-game/server/internal/game/outcome.go:423-509 | The Vault events of an accepted outcome stand in order: landed first with all Vaults, then locked, or unlocked between two events that name them all with reveals and results inside, and in King Spin upgrades and awards after; without Vaults there are none |
| `AcceptedUpgrades.AcceptedChain` | slots-game/server/internal/game/outcome.go:567-664 | In an accepted King Spin every upgrade rises from what its Vault showed last, rounds are numbered in order and have the announced size, no Vault rises twice in a round, and each award pays what its Vault showed last |
| `AcceptedUpgrades.AcceptedVaultEvents` | slots-game/server/internal/game/outcome.go:464-509 | Reveals, awards, upgrades and free-spin results of an accepted outcome name only cells that hold a Vault |
| `AcceptedFeatures.AcceptedParts` | slots-game/server/internal/game/outcome.go:25-76 | Each win of an accepted outcome runs through distinct paths of cells that show its symbol or a Wild, with the middle multiplier, and its amounts and cells are those of its paths; each event names distinct places on the grid, and only a Vault or wheel award carries money |
| `AcceptedFeatures.AcceptedFreeSpin` | slots-game/server/internal/game/outcome.go:791-841 | After an accepted free spin remaining and awarded are the old ones moved by one spin and by one for each free-spin award told, the win by the total, the meter not at all; the game goes on exactly while spins are left and otherwise closes with one event that says how many it had and paid |
| `AcceptedFeatures.AcceptedBaseSpin` | slots-game/server/internal/game/outcome.go:666-789 | An accepted base spin moves the Rage count only by its one or two settled Surge symbols, empties it when they trigger, leaves it alone for none and for three; a trigger adds the missing cells and leads to one wheel award, which pays at once or starts eight free spins of its feature |
| `AcceptedFeatures.AcceptedFrame` | slots-game/server/internal/game/outcome.go:368-421 | An accepted outcome tells the size of its grid exactly in Kong Quest, and a notice of the cap at most once, bare, with the cap the game has reached, closing the list |
| `AcceptedFeatures.AcceptedWays` | slots-game/server/internal/game/outcome.go:112-122 | The wins of an accepted outcome are those the cells of its grid pay at the bet, projected onto what is left of the cap |
| `UnstartedFeatures.NextUnchecked` | slots-game/server/internal/game/outcome.go:680-741 | On a base spin without a wheel award the validator accepts exactly the next states that keep the meter and are well formed, those that start free spins included |
| `UnstartedFeatures.StartedExactly` | slots-game/server/internal/game/outcome.go:742-789 | Free spins that an accepted base spin starts are announced exactly when the outcome tells of a wheel award |
| `UnstartedFeatures.EngineStarts` | slots-game/server/internal/game/engine.go:88-157 | What the engine itself returns starts free spins only with a wheel award among its events |
| `UnstartedFeatures.UnstartedAccepted` | slots-game/server/internal/game/outcome.go:680-741 | The failing input: an accepted outcome without any event whose next state holds eight free spins |
| `OutcomeChecks.CheckStructure` | slots-game/server/internal/game/outcome.go:19-83 | The definition-free part decides exactly the structural rules |
| `PathChecks.CheckPathAwards` | slots-game/server/internal/game/outcome.go:158-235 | The path loop accepts exactly the wins whose paths are legal, distinct, and account for its amounts and cells |
| `EventChecks.CheckVisibleAwards` | slots-game/server/internal/game/outcome.go:25-76 | The win and event loops accept exactly legal wins and events whose visible awards are the total in int64 |
| `VaultChecks.CheckSequence` | slots-game/server/internal/game/outcome.go:474-518 | The event loop accepts exactly the sequences in which every Vault event stands where its mode allows, on a Vault cell, once per cell |
| `VaultChecks.CheckResults` | slots-game/server/internal/game/outcome.go:531-556 | The tables decide the result rules of every Vault; what those guarantee of cell, reveal and award is `AcceptedShows` |
| `KingResults.CheckKing` | slots-game/server/internal/game/outcome.go:567-664 | The King Spin check decides reveals, chain, final awards and their order exactly |
| `KingChecks.ReplayChain` | slots-game/server/internal/game/outcome.go:605-648 | The replay of upgrade groups ends as the chain of steps does |
| `FeatureChecks.CheckVaults` | slots-game/server/internal/game/outcome.go:423-565 | The Vault check decides the locked and the unlocked section rules exactly |
| `FeatureChecks.CheckCompletion` | slots-game/server/internal/game/outcome.go:791-841 | The completion check decides the counter, carried-win and completion rules exactly |
| `OutcomeChecks.CheckRageAndWheel` | slots-game/server/internal/game/outcome.go:666-789 | The Rage and wheel check decides its rules exactly |
| `OutcomeChecks.CheckWinCapEvent` | slots-game/server/internal/game/outcome.go:368-399 | The notice check accepts exactly no notice, or one bare notice whose multiple the game has reached, closing the list |
| `WalletSafety.StepPreserves` | slots-game/server/cmd/local-operator/store.go:431-711 | Every step of every transaction, interleaved with any others, keeps conservation, the exclusion of success and rejection, and what each running transaction has read and locked; why it decides as it does is `CommitGrounds` |
| `WalletSafety.ReachableLedger` | slots-game/server/cmd/local-operator/store.go:431-695 | In every reachable state each balance is its seed plus credits minus debits of the operations not rolled back, within int64; success and rejection exclude each other; and an operation is rolled back exactly when one rollback, and only one, names it |
| `WalletGrounds.SessionRefused` | slots-game/server/cmd/local-operator/store.go:472-495 | Over every run: an apply whose session check answered no never succeeds and never changes a balance or an operation, and if it is answered it is rejected for its session |
| `WalletGrounds.CommitGrounds` | slots-game/server/cmd/local-operator/store.go:472-550 | Over every run: a commit of an apply succeeds only if it carries no session or passed its check, and the locked balance covers the debit, and then changes that one balance by credit minus debit; it rejects for a session only after a negative check, for funds only after a locked balance below the debit, for an account only after finding none |
| `SerialWallet.AppliesAsServed` | slots-game/server/cmd/local-operator/store.go:431-550 | From every reachable state an apply that nobody disturbs ends as one sequential decision: replay or conflict, then session, account and balance in this order, with exactly that answer and those tables, and its locks given back |
| `SerialReversals.ReversesAsUndone` | slots-game/server/cmd/local-operator/store.go:603-695 | From every reachable state a rollback that nobody disturbs replays its receipt, or takes a standing operation back from the balance of today if that covers it, or is refused |
| `WalletSafety.AnswersAgree` | slots-game/server/cmd/local-operator/store.go:437-485 | Answers to one operation never contradict each other, but for conflicts after a rollback |
| `WalletSafety.RunReplays` | slots-game/server/cmd/local-operator/store.go:437-485 | Once a run has decided an operation, every answered apply of it, after any further run, gets the stored result for an equal request until a rollback, the stored code for an equal rejected one, and a conflict for any other |
| `WalletSafety.RolledBackConflicts` | slots-game/server/cmd/local-operator/store.go:437-470 | An apply that begins after the rollback of its operation can only answer a conflict |
| `WalletSafety.DecidedReplays` | slots-game/server/cmd/local-operator/store.go:437-470 | An apply that reads a decided operation answers from its row, changes no table and gives its lock back |
| `WalletSafety.LookupTruthful` | slots-game/server/cmd/local-operator/wallet_handler.go:143-203 | The two unlocked reads return an answer that was true at some instant of the call |
| `WalletSafety.OneDecider` | slots-game/server/cmd/local-operator/store.go:697-711 | At most one transaction decides behind a lock, whatever operations share it |
| `WalletSafety.RunGrows` | slots-game/server/cmd/local-operator/store.go:566-601 | No run takes back a decision: operations, rejections and rollbacks stay, but for the rolled-back mark |
| `WalletLedger.CheckedBalance` | slots-game/server/cmd/local-operator/protocol.go:358-375 | A new balance is returned exactly when it is affordable and representable, and an unaffordable debit is told apart from an overflow |
| `ValkeyRotation.StepVersions` | slots-game/infra/terraform/scripts/verify-valkey-rotation-plan.rb:466-535 | A plan leaves the published version alone exactly when it leaves the credentials alone, and moves it by one with the slot or by two with the HMAC key |
| `ValkeyRotation.StepPasswords` | slots-game/infra/terraform/scripts/verify-valkey-rotation-plan.rb:528-535 | A slot's password changes only with its version, by one, never while the slot is active, and with a fresh approval |
| `ValkeyRotation.VersionNamesCredentials` | slots-game/infra/terraform/scripts/verify-valkey-rotation-plan.rb:466-535 | Along any run of accepted plans the published version never decreases and determines slot, password and HMAC key |
| `ValkeyRotation.PasswordVersionNamesPassword` | slots-game/infra/terraform/scripts/verify-valkey-rotation-plan.rb:466-535 | Along any run a slot's password version never decreases and determines its password |
| `ValkeyRotation.PublishedCounts` | slots-game/infra/terraform/scripts/verify-valkey-rotation-plan.rb:466-574 | The published version is one plus the switches plus twice the HMAC changes, and the active slot is the parity of the switches |
| `ValkeyRotation.HmacChangeAttested` | slots-game/infra/terraform/scripts/verify-valkey-rotation-plan.rb:482-502 | The HMAC key changes only from steady mode under accepted evidence, with every password left alone |
| `ValkeyRotation.AcceptedExactly` | slots-game/infra/terraform/scripts/verify-valkey-rotation-plan.rb:466-574 | A plan is accepted as entry, exit, switch, preparation or no change exactly when it is well formed and differs from the guard before it in the fields of that kind only, as that kind prescribes |
| `ValkeyRotation.NeverStuck` | slots-game/infra/terraform/scripts/verify-valkey-rotation-plan.rb:482-520 | From every well-formed state a maintenance can be left and otherwise the slot can be switched |
| `DefinitionFiles.RecoverableIsSafe` | slots-game/server/cmd/local-production-bootstrap/main.go:984-1007 | Whichever unsynced updates a power loss keeps, a recoverable disk without its marker holds one whole generation |
| `DefinitionFiles.PowerLossKeepsRecoverable` | slots-game/server/cmd/local-production-bootstrap/main.go:853-924 | A power loss at any moment leaves a recoverable disk |
| `DefinitionFiles.RemovalSafeExactly` | slots-game/server/cmd/local-production-bootstrap/main.go:898-909 | Removing the marker over one visible generation is safe if and only if no unsynced rename would change a file |
| `DefinitionFiles.KilledCommitUnsafe` | slots-game/server/cmd/local-production-bootstrap/main.go:898-909 | The failing input: after a commit killed before its sync, retaining the target can leave a mixed pair without a marker |
| `DefinitionRotation.DefinitionStore.Recover` | slots-game/server/cmd/local-production-bootstrap/main.go:853-924 | A recovery that succeeds over a marker ends, synced and without it, on the very pair it found when that pair is one generation and could be read, and on the previous generation otherwise; without faults it succeeds on every complete marker; every state stays recoverable unless it retains over loose renames, and then some state is unsafe |
| `DefinitionRotation.DefinitionStore.Rotate` | slots-game/server/cmd/local-production-bootstrap/main.go:527-651 | A rotation keeps every state recoverable under the same condition, and without faults ends on the target; begun over a marker and the whole target it only removes the marker, makes no backup and passes no other pair; refused for its approval it leaves the generation the recovery found or the previous one |
| `DefinitionRotation.CommittedTakenBack` | slots-game/server/cmd/local-production-bootstrap/main.go:892-924 | The failing input: one failed read of a committed target, and the recovery restores the previous generation and reports success |
| `DefinitionRotation.DefinitionStore.ReplaceArtifacts` | slots-game/server/cmd/local-production-bootstrap/main.go:984-1007 | Both renames and the sync keep the disk recoverable at every step |
| `DefinitionRotation.DefinitionStore.CreateBackup` | slots-game/server/cmd/local-production-bootstrap/main.go:926-982 | A backup takes a free name, is complete when reported, and touches no other |
| `AuditLog.AuditStore.Append` | slots-game/server/cmd/local-operator/sinks.go:311-362 | A record is appended once per event: duplicates are answered, conflicts and oversized records refused, and after rotation, a failed write or a failed sync the index and the total still describe the log; without faults a fresh record is accepted exactly when the file limit has room |
| `AuditLog.AuditStore.Reopen` | slots-game/server/cmd/local-operator/sinks.go:166-219 | A restart rebuilds exactly the index and the total that were in memory |
| `AuditLog.AuditStore.RebuildIndex` | slots-game/server/cmd/local-operator/sinks.go:166-219 | The rebuild succeeds exactly when limits are ordered, every segment ends with a whole record, the lines have an index and the sizes fit |
| `AuditLog.AuditStore.RotateSegment` | slots-game/server/cmd/local-operator/sinks.go:502-537 | A rotation archives the active segment whole or leaves everything as it was |
| `AuditLog.ScanSegments` | slots-game/server/cmd/local-operator/sinks.go:174-211 | The scan of all segments computes the index and the size of the records in order |
| `AuditRecords.RebuiltIs` | slots-game/server/cmd/local-operator/sinks.go:188-205 | The index recomputed from records of distinct events is the one that agrees with them |
| `AuditRecords.LinesAppended` | slots-game/server/cmd/local-operator/sinks.go:327-353 | A record written with its newline to a complete file is read back as its last line |
| `AuditLog.UnacknowledgedIsFound` | slots-game/server/cmd/local-operator/sinks.go:188-205 | A record written whole before the process died is found by the rebuild beside all others |
| `AuditLog.TornTailRefused` | slots-game/server/cmd/local-operator/sinks.go:293-309 | A log torn within a record is refused by every restart |
| `OutboxDispatcher.CheckLease` | slots-game/server/internal/outbox/dispatcher.go:101-115 | The lease check accepts exactly the configurations whose waves of timeouts end before the lease |
| `OutboxDispatcher.StartsInItsWave` | slots-game/server/internal/outbox/dispatcher.go:142-211 | In a pass the i-th publish starts within floor(i/p) timeouts of the claim |
| `OutboxDispatcher.PassEndsInWaves` | slots-game/server/internal/outbox/dispatcher.go:142-211 | Every publish of a pass over n events ends within ceil(n/p) timeouts |
| `OutboxDispatcher.PassEndsWithinLease` | slots-game/server/internal/outbox/dispatcher.go:111-115 | In an accepted configuration every publish ends before the lease does |
| `OutboxDispatcher.PublishersBounded` | slots-game/server/internal/outbox/dispatcher.go:238-269 | Across any number of passes at most p publisher calls are alive, even if none honours its deadline |
| `OutboxDispatcher.RetryDelay` | slots-game/server/internal/outbox/dispatcher.go:301-319 | The delay doubles from the base to the maximum without leaving int64 |
| `AdmissionLimiter.Limiter.Allow` | slots-game/server/internal/platform/limiter.go:39-75 | The limiter answers and changes its table as one step of the table of buckets does |
| `AdmissionLimiter.TokenTime` | slots-game/server/internal/platform/limiter.go:39-75 | Counting time in tokens leaves every refill and every comparison of the limiter as it is |
| `AdmissionLimiter.StepOk` | slots-game/server/internal/platform/limiter.go:39-96 | List and map hold the same buckets ordered by last use |
| `AdmissionLimiter.LimiterRefines` | slots-game/server/internal/platform/limiter.go:39-96 | With a clock that never goes back and idle keys refilled, every answer but those of a full table is that of a token bucket that never evicts |
| `AdmissionLimiter.AdmissionsBounded` | slots-game/server/internal/platform/limiter.go:39-96 | Then a key is admitted at most burst plus what flowed in |
| `AdmissionExactly.AdmittedExactly` | slots-game/server/internal/platform/limiter.go:39-75 | With the same clock and limits a request that the full table does not turn away is admitted exactly when one more admission keeps every window from an earlier request on within the burst plus what flowed in since |
| `AdmissionExactly.RoomInTable` | slots-game/server/internal/platform/limiter.go:51-61 | The full table turns nobody away while it holds fewer keys than it may, nor a key used within the idle time |
| `AdmissionLimiter.BoundedExactlyWhenRefilled` | slots-game/server/internal/platform/limiter.go:39-96 | That bound holds on every run if and only if the idle expiry lets a key refill its burst |
| `NonceStore.MemoryNonceStore.Consume` | slots-game/server/internal/operator/nonce.go:32-54 | The map purges what has expired and consumes a nonce unless it is held or late |
| `NonceStore.StoresAgree` | slots-game/server/cmd/local-operator/store.go:42-54 | The purging map and the upsert answer alike on every run of a clock that never goes back |
| `NonceStore.ConsumedOnce` | slots-game/server/internal/operator/nonce.go:32-54 | A nonce is consumed again only after its first deadline has passed |
| `NonceStore.RequestConsumedOnce` | slots-game/server/internal/operator/http_signature.go:262-294 | A signed request is consumed at most once over any run, despite purging |
| `NonceStore.FirstUseConsumed` | slots-game/server/internal/operator/http_signature.go:182-192 | No request inside its window is refused on first use while the store clock leads by at most the skew |
| `NonceStore.ReplayRefused` | slots-game/server/internal/operator/http_signature.go:279-293 | Every later use inside the window is refused |
| `NonceStore.KeysDiffer` | slots-game/server/internal/operator/nonce.go:45 | The joined key determines scope and nonce |
| `SimulationRng.SimulationRng.Intn` | slots-game/server/cmd/math-verify/main.go:31-43 | Words are drawn until one is accepted, and its residue is returned |
| `SimulationRng.EqualChances` | slots-game/server/cmd/math-verify/main.go:31-43 | Every residue is produced by equally many accepted 64-bit words |

## Findings

Five properties the code is meant to have fail on some inputs. Each row names the input and the exact condition.

| property | source | failing input | holds exactly when |
|---|---|---|---|
| A definition that passes the check never makes a spin fail for its weights | slots-game/server/internal/game/engine.go:353-381, slots-game/server/internal/game/config.go:280-285 | `HeavyVaults.HEAVY` with `HeavyVaults.LAST_SPIN` on the tape `VaultOverflow.FailingTape(3, 0)`: the free-spin weight is the largest int, the definition is accepted, and the spin ends in the weight overflow (`HeavyVaults.HeavySpin`) | not all of: the spin is an Expansion spin, money weights plus free-spin weight exceed the largest int, the middle reel can yield a Vault, the unlock chance is positive (`VaultOverflow.OverflowExactly`) |
| Without the marker, definition and approval are one whole generation | slots-game/server/cmd/local-production-bootstrap/main.go:898-909, slots-game/server/cmd/local-production-bootstrap/main.go:984-1007 | `DefinitionFiles.KilledCommit`: a commit killed after both renames and before its sync; recovery finds the whole target, removes the marker, and a power loss keeps the removal and the approval's rename but not the definition's (`DefinitionFiles.KilledCommitUnsafe`); a failed sync leads there as well | no unsynced rename changes a file when recovery retains what it finds (`DefinitionFiles.RemovalSafeExactly`) |
| A recovery retains a fully committed target | slots-game/server/cmd/local-production-bootstrap/main.go:847-852, slots-game/server/cmd/local-production-bootstrap/main.go:892-913 | `DefinitionRotation.CommittedTarget` with a read of the current pair that fails: every failed load counts as a mixed pair, so the previous generation is restored and success reported (`DefinitionRotation.CommittedTakenBack`) | the read of the current pair succeeds (`DefinitionRotation.DefinitionStore.Recover`) |
| Free spins that an accepted base outcome hands on were won at its wheel | slots-game/server/internal/game/outcome.go:680-741, slots-game/server/internal/game/outcome.go:317-340 | `UnstartedFeatures.Unstarted`: a losing spin without any event that hands on eight free spins (`UnstartedFeatures.UnstartedAccepted`); without a wheel award every well-formed next state is accepted (`UnstartedFeatures.NextUnchecked`) | the outcome tells of a wheel award (`UnstartedFeatures.StartedExactly`); what the engine returns always does (`UnstartedFeatures.EngineStarts`) |
| A key is admitted at most burst plus rate times elapsed | slots-game/server/internal/platform/limiter.go:39-96 | `AdmissionLimiter.TwoBursts`: a burst at time zero and another as soon as the key has been idle long enough to be forgotten (`AdmissionLimiter.TwoBurstsExceed`) | rate times idle expiry is at least the burst (`AdmissionLimiter.BoundedExactlyWhenRefilled`) |

The Rage meter at its limit is a documented failure of a spin; `VaultOverflow.MeterFullExactly` says when it happens.
Where slots-game/docs/gameplay-rules.md:61 lets three or more Rage symbols trigger, the engine settles at most three and the
validator refuses more; the model follows the code.

## Left out

- Identifier patterns of definitions, wins and events, and the engine-rules version: regular expressions over names.
- Cloning of configurations, contexts cancelled in the middle of a call, and the cryptographic random source: the tape
  fails when it is exhausted, and cancellation is a flag read at the start of a spin.
- `usedCells` and the validator's maps are sets and maps of the same positions; the second multiplier map of the King Spin
  check names the prize of the first and is not kept twice.
- The stable library sort is modelled as stable insertion.
- Reading an operation a second time after a rolled-back row was found, deterministic transaction IDs, sessions (an oracle
  answers whether one matches), SQL text and driver errors: an error aborts the transaction.
- The wallet tables' primary keys are assumed, since the migrations do not belong to the modelled files.
- Evidence payloads, attestation fields, resource allowlists and plan documents of the credential rotation: evidence is
  accepted or not, and plan actions other than create, update and no-op are refused before the modelled checks.
- Definitions are known by their digests, approvals by the digest they approve and whether their signature holds; game
  identity and the fixed evidence profile are part of a generation being known. Leftover staging files and unfinished
  backups have no reader. A failed rename or sync changes nothing visible.
- Undoing a failed segment rotation and truncating after a failed write are assumed to succeed; file modes, directory
  syncs and symbolic links are not modelled. An audit body stands for its digest.
- The log store with pruning and its deduplicating variant repeat the audit store with weaker promises.
- Store writes of the dispatcher take no time, and a publisher that panics counts as a failed publish.
- The limiter counts time in tokens, that is seconds times rate, over real numbers; rounding of floating point is left out.
- Nonces are checked for the NUL character only; signatures, digests and header parsing are library code.
- Metrics, logging, HTTP handling beyond the two reads of the lookup, JSON, TLS, the web client and the render checks.
