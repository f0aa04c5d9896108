# Verification of the settlement pipeline

A Dafny model of the parts of this repository on which correct settlement rests, with
proofs. `dafny verify dfyconfig.toml` checks everything.

**The oracle's proof checker** (`Merkle`, `Multiproof*`, `Oracle*`, `Strategy`, `Borsh`).
The multiproof walk is modelled as the loop it is and proved equal to a recursive
specification. For any hash whatever it refines the per-leaf form. Against the root of
a perfect tree it accepts only honest leaves at their claimed places, or exhibits a
collision among the values actually hashed; completeness has an exact condition.

**What is provable is what was created** (`Coverage`, `SdkCoverage`, `Catalogue`,
`Settlement*`, `PathSoundness`, `PublishedTruth`, `ConflictingBatches`, `MockProof`). Three
differently written coverage checks are compared, the parlay compiler is proved to preserve
meaning, every shipped market type has exactly one true outcome, and a verified outcome,
plain or compound, is the one that holds of the published values.

**The money** (`PayoutMath`, `Projection`, `Escrow*`, `MarketAccount`, `EndToEnd`). One
market from initialization through any run of instructions: `Escrow` is the effect of
each instruction on a state, `MarketAccount` the handlers with their mutable fields,
proved to have exactly that effect and, on a valid account, to succeed and pay exactly when
and what they should; `EscrowAnswers` says it on the fields, error by error. Tokens sent in by outsiders are instructions too.
Conservation, exact last claim, finality, and nobody stuck hold in every reachable state.

**Prop vaults** (`PropVaults`). One deposit, paid to the beneficiary exactly if the published values
satisfy the vault's predicates, else back.

**Accounts** (`Codec`, `Accounts`). Borsh for a schema language, with the space Anchor
reserves; the sized allocations are always enough.

**Group tables** (`Sorting`, `Components`, `Standings`). The stack loop and the counter
updates, down to a report that does not depend on the order of the fixtures. The API and
the web copy are the same algorithm.

**The keeper and its leader** (`Ingest`, `Keeper*`, `Leader*`). Everything that happens
between two awaits is one event; safety holds in every interleaving and across crashes;
without failures a sweep locks what is due and resolves what is stuck, and an attempt records
the outcome; leadership overlaps for a bounded time only.

Hash functions are parameters: any function, unless a lemma names the collision it
would need. Clocks, reads, replies and the events of outsiders are parameters too.

## Where code and documentation differ

The model follows the code; each difference is stated by a lemma in the table.

- The payout the API shows is documented to mirror the program. It takes the fee from the
  losing pool, the program from the whole pool, and it floors every share, while the
  program pays the last claimer the rest: it can be too high and too low, and
  `Projection.ShowsWhatIsPaidIff` says exactly when it is right.
- The rules of a market are documented as fixed for people who have staked. The handler
  asks only that the market is open, so a spec can follow stakes
  (`EscrowTheorems.SpecCanFollowStakes`); `RulesAreFixedIff` says exactly when they are fixed.
- The multiproof walk is driven by indices only and stops early when the largest index
  is small for the tree (`MultiproofCompleteness.LoneZeroIsRefused`).
- The SDK's coverage check rejects neither negative nor fractional indices, nor NaN
  (`SdkCoverage.ThreeStrays`), nor more than five legs; it agrees with the chain exactly on
  whole indices within that limit.
- The mock prover's big-number encoder drops the sign (`MockProof`).
- The cancel backstop is documented as always available. Lock time plus timeout can
  exceed the 64-bit range, and then it never is (`EscrowTheorems.BackstopCanBeMissing`,
  `PropVaults.RefundCanBeMissing`).
- An "under" label says strictly below; for a whole line the predicate also holds on the
  line (`Catalogue.UnderMeansBelowIffLineIsFractional`). All shipped lines are fractional.
- Recording a resolution takes everything that is not settled for cancelled. This is
  right exactly for reads that show a terminal status (`KeeperTheorems.ReadIsSafeIffTerminal`).
- The sweep is documented to lock markets whose lock time has passed. It locks those whose
  record is still in phase created; a match finalised before that is not locked by the keeper
  any more, nor resolved (`KeeperProgress.FinalisedTooEarlyStaysOpen`).
- The cancel backstop records a market somebody else settled without writing its receipt
  (`KeeperAttempts.SweepLeavesNoReceipt`).
- "Exactly one keeper acts": for a bounded time two can (`Leader.TwoCanLead`).

## Model

| member | source | states |
|---|---|---|
| Merkle.FoldProof | proofbook/programs/mock_oracle/src/lib.rs:165-175 | The loop over a sibling path computes the fold of the path, the running node going left exactly where the sibling is marked right |
| Merkle.AboveKeepsRoot | proofbook/programs/mock_oracle/src/lib.rs:188-193 | Every layer of a perfect tree, however high, has the root of the whole tree |
| Multiproof.VerifyMultiproof | proofbook/programs/mock_oracle/src/lib.rs:204-265 | The imperative walk gives exactly the verdict of the level-by-level specification, error by error, and every walk that does not run out of hashes takes exactly bit-length(largest index) rounds |
| Multiproof.ClimbLevel | proofbook/programs/mock_oracle/src/lib.rs:226-255 | One round with its two-sibling and one-sibling branches is the recursive round, consuming the same hashes |
| Multiproof.HasEqualNeighbours | proofbook/programs/mock_oracle/src/lib.rs:219-221 | The window scan over the sorted level finds a repetition exactly if some index was supplied twice |
| Multiproof.ClimbShape | proofbook/programs/mock_oracle/src/lib.rs:226-259 | Every round keeps the level strictly ascending with halved indices, so the per-round sort and dedup change nothing |
| Multiproof.SortOfSorted | proofbook/programs/mock_oracle/src/lib.rs:256-256 | Sorting an ascending level is the identity |
| Multiproof.DedupOfStrict | proofbook/programs/mock_oracle/src/lib.rs:257-257 | Deduplicating a strictly ascending level is the identity |
| Multiproof.DedupSnoc | proofbook/programs/mock_oracle/src/lib.rs:257-257 | On any level, deduplication keeps an entry exactly if the one before it has another index |
| MultiproofPaths.AcceptedLeafHasPath | proofbook/programs/mock_oracle/src/lib.rs:165-185 | For any hash whatever: when the shared form accepts, each leaf has a sibling path with directions given by its index bits that folds to the same root |
| MultiproofPaths.AcceptedLength | proofbook/programs/mock_oracle/src/lib.rs:262-262 | The number of hashes an accepted proof supplies depends only on the set of indices |
| MultiproofPaths.VerdictOfPermutation | proofbook/programs/mock_oracle/src/lib.rs:212-221 | Reordering the (index, leaf) pairs changes neither acceptance nor the error |
| MultiproofCompleteness.HonestAcceptedIffFullDepth | proofbook/programs/mock_oracle/src/lib.rs:204-265 | For any hash, perfect tree and non-empty set of positions, feeding exactly the missing siblings is accepted if and only if the largest index has as many bits as the tree is deep |
| MultiproofCompleteness.LoneZeroIsRefused | proofbook/programs/mock_oracle/src/lib.rs:225-225 | A lone leaf at index 0 of a deeper tree is refused although every hash is honest: the walk stops before it starts |
| MultiproofCompleteness.WalkHonest | proofbook/programs/mock_oracle/src/lib.rs:223-260 | On honest input every level of the walk is the matching level of the tree and the feed runs out exactly at the top |
| MultiproofSoundness.AcceptedIsHonestOrBreaks | proofbook/programs/mock_oracle/src/lib.rs:204-265 | If a proof is accepted against the root of a perfect tree of depth d, then all d levels were walked and every supplied leaf hash is the leaf at its claimed index, or a collision is exhibited on the very values hashed |
| MultiproofSoundness.AcceptedIffHonest | proofbook/programs/mock_oracle/src/lib.rs:204-265 | Where the proof and the tree exhibit no break of the hash, acceptance holds exactly for honest leaves, the missing siblings and full depth |
| MultiproofSoundness.SoundWhenInjective | proofbook/programs/mock_oracle/src/lib.rs:188-193 | With an injective node hash and leaf hashes that are no node hashes, acceptance holds exactly for honest leaves with the missing siblings and full depth, for any leaf set and any supplied hashes |
| MultiproofSoundness.TermsAreSound | proofbook/programs/mock_oracle/src/lib.rs:153-161 | The free term algebra is such a hash |
| MultiproofSoundness.NotTooShort | proofbook/programs/mock_oracle/src/lib.rs:225-225 | A walk that stopped below the top of the tree would exhibit a collision |
| MultiproofSoundness.NotTooTall | proofbook/programs/mock_oracle/src/lib.rs:225-225 | So would a walk that climbed past it |
| Oracle.ValidateStatV2 | proofbook/programs/mock_oracle/src/lib.rs:49-78 | The handler answers the specification: day, event root, every leaf, batch, then coverage and predicates, in that order of errors |
| Oracle.ValidateStatV3 | proofbook/programs/mock_oracle/src/lib.rs:87-131 | The same for the shared form |
| Oracle.VerifyBatch | proofbook/programs/mock_oracle/src/lib.rs:69-73 | Folding the two batch paths one after the other decides whether the summary is under the daily root |
| OracleSoundness.DayIsItsHours | proofbook/programs/mock_oracle/src/lib.rs:146-148 | A timestamp belongs to day d exactly from d * 86400000 to before (d + 1) * 86400000 milliseconds, for every d the account can carry |
| OracleSoundness.V2Answers | proofbook/programs/mock_oracle/src/lib.rs:49-78 | A v2 payload is refused with WrongDailyRoot exactly if its timestamp is not of the published day, and accepted exactly if everything proves |
| OracleSoundness.V3Answers | proofbook/programs/mock_oracle/src/lib.rs:87-131 | The same for v3 |
| OracleSoundness.V2InOrder | proofbook/programs/mock_oracle/src/lib.rs:56-75 | The first failing check answers: day, event root, stat proofs, batch; without one the strategy does |
| OracleSoundness.V3InOrder | proofbook/programs/mock_oracle/src/lib.rs:93-130 | For v3 the walk stands between the first three checks and the batch |
| OracleSoundness.V3RefinesV2 | proofbook/programs/mock_oracle/src/lib.rs:165-185 | Whatever verdict v3 reaches on a payload, v2 reaches the same on the same stats with per-leaf paths extracted from the shared proof, for any hash |
| OracleSoundness.FoldReachesLeaf | proofbook/programs/mock_oracle/src/lib.rs:165-175 | A path that folds to the root of a published tree started at one of its leaves, or a collision is exhibited |
| Strategy.EvaluateStrategy | proofbook/programs/mock_oracle/src/lib.rs:273-349 | The imperative evaluation, with its reference list, covered flags and distance sum, is the specification, error by error |
| Strategy.CheckCoverage | proofbook/programs/mock_oracle/src/lib.rs:291-302 | The scan reports the first out-of-range or repeated reference, else an uncovered stat |
| Strategy.CoverageIffExact | proofbook/programs/mock_oracle/src/lib.rs:286-302 | The scan succeeds exactly when the references are each stat once |
| Strategy.ExactCoverIsPermutation | proofbook/programs/mock_oracle/src/lib.rs:286-302 | Being each stat once is being a permutation of 0..n-1 |
| Strategy.OperandFitsI64 | proofbook/programs/mock_oracle/src/lib.rs:325-340 | Without geometric targets no operand can leave the 64-bit range |
| Strategy.EvaluationMeaning | proofbook/programs/mock_oracle/src/lib.rs:273-349 | On a full cover of at most 32 stats the answer is that of the predicates, and with targets of the distance condition too, on the values themselves; a missing condition and a distance beyond 64 bits are errors |
| Strategy.EvaluationRefusals | proofbook/programs/mock_oracle/src/lib.rs:276-302 | More than 32 stats are refused as such, any list that is not a full cover under the fault of the scan |
| Strategy.CoverageNamesFirstFault | proofbook/programs/mock_oracle/src/lib.rs:291-302 | The fault is that of the first reference out of range or repeated |
| Strategy.DistanceOfTwo | proofbook/programs/mock_oracle/src/lib.rs:304-323 | The distance adds squared differences to the predictions |
| Coverage.ValidateComboSpec | proofbook/programs/proofbook/src/state.rs:252-276 | Validation succeeds exactly for well-formed specs, 1 to 5 legs, one entry per market outcome, every outcome covering every leg once, and otherwise returns the fault of the first faulty outcome |
| Coverage.ValidIffWellFormed | proofbook/programs/proofbook/src/state.rs:252-276 | The verdict is success exactly for well-formed specs |
| Coverage.ValidatePropVault | proofbook/programs/proofbook/src/state.rs:362-380 | The same loop for a prop vault, with its own limit on predicates |
| Coverage.ValidatePredicates | proofbook/programs/proofbook/src/state.rs:266-273 | The bool array with early exit gives the very error the settle-time scan would give |
| Coverage.Mark | proofbook/programs/proofbook/src/state.rs:186-202 | Marking a predicate sets exactly its legs, or names the fault |
| Coverage.ValidatedIffEvaluable | proofbook/programs/proofbook/src/state.rs:212-220 | A non-empty predicate list passes validation if and only if the oracle can evaluate it on every list of values |
| Coverage.PredicatesAtMostLegs | proofbook/programs/proofbook/src/state.rs:205-210 | A validated outcome has at most one predicate per leg |
| SdkCoverage.AssertCoverage | proofbook/sdk/src/predicate.ts:249-271 | The counting checker of the SDK, on any list of numbers JavaScript allows: no fault exactly for the lists whose slots are counted once, else the first reference past the last leg or the first miscounted leg with its count |
| SdkCoverage.CountsIffExact | proofbook/sdk/src/predicate.ts:249-271 | On indices that are not negative, counting every leg once is covering exactly |
| SdkCoverage.StraysSlipThrough | proofbook/sdk/src/predicate.ts:249-271 | Every index that names no slot and is not past the last leg passes unnoticed, and the chain refuses it |
| SdkCoverage.ThreeStrays | proofbook/sdk/src/predicate.ts:249-271 | A negative index, half an index and NaN are such indices |
| SdkCoverage.SdkAgreesIffWhole | proofbook/sdk/src/predicate.ts:249-271 | A list the SDK accepts is accepted on chain exactly if there are one to five legs and every index is a non-negative integer |
| SdkCoverage.ChainAcceptsImpliesSdk | proofbook/sdk/src/predicate.ts:249-271 | What the chain accepts the SDK accepts |
| SdkCoverage.ChainAcceptsIsValidation | proofbook/programs/proofbook/src/state.rs:252-276 | Chain acceptance here is the program's own validation of one outcome |
| SdkCoverage.SixLegsSlipThrough | proofbook/sdk/src/predicate.ts:249-271 | Six legs read once each pass the SDK, and the program refuses them |
| Catalogue.OverMeansAboveTheLine | proofbook/keeper/src/markets/catalogue.ts:156-188 | "Over k" holds of an integer total exactly above the line, and its complement exactly at or below it |
| Catalogue.UnderMeansBelowIffLineIsFractional | proofbook/sdk/src/predicate.ts:111-118 | The complement means "under", strictly below, exactly for lines no total can hit |
| Catalogue.ParlayReadsDisjointStats | proofbook/keeper/src/markets/catalogue.ts:197-218 | A parlay is compiled only from conditions over provable stats of different families |
| Catalogue.GridMeaning | proofbook/keeper/src/markets/catalogue.ts:197-254 | For any two well-formed conditions and all integer values each cell of the grid reads every leg once and exactly the cell that matches both conditions holds; cell 0 is "A and B" |
| Catalogue.MissIsNotAnOutcome | proofbook/keeper/src/markets/catalogue.ts:190-254 | No outcome that reads the four legs once each can mean "not both": whatever its predicates, it is wrong on some values |
| Catalogue.ClaimAgreesWithOracle | proofbook/keeper/src/markets/v3proof.ts:136-153 | For every covered definition and all values the claimed outcome is the least one the oracle evaluates to true, and none exactly if it evaluates none to true |
| Catalogue.ClaimIsTheOnlyProvableOutcome | proofbook/keeper/src/markets/v3proof.ts:136-153 | For a shipped type the claimed outcome is the only one the oracle would accept |
| Catalogue.ShippedTypesTile | proofbook/keeper/src/markets/catalogue.ts:260-401 | For every shipped type no two outcomes hold together, and one holds of all values, except that the two types 32 and 33 decide exactly the non-negative ones |
| Catalogue.GridTiles | proofbook/keeper/src/markets/catalogue.ts:197-254 | The four cells of any grid are exclusive and exhaustive |
| Catalogue.AssertCatalogue | proofbook/keeper/src/markets/catalogue.ts:420-486 | The import-time loops accept a catalogue exactly if every definition is listed in the registry under its own slug and labels, every definition is sound, and no type is declared twice |
| Catalogue.ShippedCatalogueIsOk | proofbook/keeper/src/markets/catalogue.ts:260-401 | The shipped catalogue passes |
| Catalogue.ShippedParlaysAreLegal | proofbook/keeper/src/markets/catalogue.ts:197-218 | The family gate lets the four shipped parlays through and refuses "home win and over" at every line |
| Borsh.EncodeStatInjective | proofbook/programs/mock_oracle/src/lib.rs:422-427 | Two stats with the same leaf bytes are the same stat |
| Borsh.EncodeSummaryInjective | proofbook/programs/mock_oracle/src/lib.rs:486-498 | Two batch summaries with the same bytes agree in every field |
| MockProof.EncScoreStat | proofbook/keeper/src/chain/mockProof.ts:21-27 | The buffer writes produce the Borsh bytes of the stat |
| MockProof.BigNumberIsBorshIffNonNegative | proofbook/keeper/src/chain/mockProof.ts:29-45 | The big-number encoder is Borsh exactly for non-negative numbers and the smallest one: it drops the sign |
| MockProof.MockProofSettlesExactlyTheResult | proofbook/keeper/src/chain/mockProof.ts:53-92 | For any hash, goals, positive fixture id, period and timestamp in range, the built proof passes every check of v2 under its own root, and exactly the match-winner outcome the settler claims is verified |
| MockProof.MockProofProves | proofbook/keeper/src/chain/mockProof.ts:58-92 | Both leaves fold to the event root and the summary is the daily root |
| MockProof.ClaimIsTheSign | proofbook/keeper/src/core/settler.ts:104-104 | The claimed index names the sign of the goal difference, as the three specs do |
| Settlement.ValidatedNeverFailsCoverage | proofbook/programs/proofbook/src/oracle/mod.rs:260-350 | A market validated at creation can only fail settlement on the proof material, never on coverage |
| SettlementAnswers.CompoundAnswersIff | proofbook/programs/proofbook/src/oracle/mod.rs:260-354 | For any hash a validated compound outcome gets a verdict exactly if fixture, event root, day, legs and batch all prove, and the verdict is whether its predicates hold of the values carried |
| SettlementAnswers.PlainAnswersIff | proofbook/programs/proofbook/src/oracle/mod.rs:402-480 | The same for an outcome of a plain market: its own comparison on the values carried |
| SettlementAnswers.ProgramAnswersFirst | proofbook/programs/proofbook/src/oracle/mod.rs:268-287 | Before the oracle is asked the first failing check answers, and after that every refusal is the oracle's |
| PathSoundness.FoldReachesLayer | proofbook/programs/mock_oracle/src/lib.rs:165-175 | A sibling path that folds to the root of a perfect tree is as long as the tree is deep and starts at the leaf its directions spell, unless the path and the tree exhibit a break of the hash |
| PublishedTruth.VerdictIsPublished | proofbook/programs/proofbook/src/oracle/mod.rs:260-350 | A verdict of v3, true or false, is that of the predicates, with every leg carrying the value published for its stat in a batch of the market's own fixture, or the hash is broken on the values involved; a day may hold any number of batches |
| PublishedTruth.PlainVerdictIsPublished | proofbook/programs/proofbook/src/oracle/mod.rs:402-470 | The same for v2: the verdict is that of the outcome's own comparison on published values, or the hash is broken |
| PublishedTruth.VerifiedValuesAgree | proofbook/programs/proofbook/src/oracle/mod.rs:260-350 | Two verified proofs over the same legs carry the same values, whoever submits them, if their batches publish no leg with two values |
| PublishedTruth.OnlyOneOutcomeVerifies | proofbook/programs/proofbook/src/oracle/mod.rs:234-250 | No two outcomes of a market of a shipped compound type can both be verified from batches that publish none of its legs with two values |
| PublishedTruth.OnlyOneResultVerifies | proofbook/keeper/src/chain/proofbook.ts:46-60 | No two results of a match-winner market can both be verified from batches that publish neither of its two scores with two values |
| ConflictingBatches.TwoOutcomesCanVerify | proofbook/programs/proofbook/src/oracle/mod.rs:260-350 | Without that hypothesis it fails: in a concrete public world with an unbroken hash two batches publish two home scores, and the home win and the draw both verify, through v2 and through v3 |
| EndToEnd.SettledOutcomeIsPublished | proofbook/programs/proofbook/src/instructions/settle_market_v3.rs:46-102 | From initialization through any run, the outcome a market records, plain or compound, holds of values published for its own fixture under the outcome specs it was born with or the combo spec attached while it was open |
| PayoutMath.NothingOverflows | proofbook/programs/proofbook/src/math.rs:10-50 | Up to a 100% fee no checked step fails and the results are the plain floored quotients |
| PayoutMath.DustIsSmall | proofbook/programs/proofbook/src/math.rs:31-50 | All floored shares together fit the pot and miss it by less than the number of winners |
| PayoutMath.RemainingFloorsCovered | proofbook/programs/proofbook/src/math.rs:173-179 | Before any claim the rest of the pot covers the floors of all remaining winners |
| PayoutMath.LastIffAllClaimed | proofbook/programs/proofbook/src/math.rs:169-171 | The running stake equals the winning pool exactly at the last claim |
| PayoutMath.SimulateClaims | proofbook/programs/proofbook/src/math.rs:161-183 | For every list of positive stakes in every order: payouts sum to exactly the pot, nobody but the last gets other than the floor, the last gets the floor plus less than the number of winners, and every claim leaves the remaining floors covered |
| Projection.ShownBounds | proofbook/api/src/queries.ts:285-333 | At any open claim of any market the payout shown falls short of what the claim pays by less than one unit per winner, and exceeds it by at most the fee on the stake plus two units |
| Projection.ProjectionBounds | proofbook/api/src/queries.ts:285-301 | Against the floored share, which all but the last claimer are paid: never below it, above it by at most the fee on the stake plus two units, equal without a fee |
| Projection.ProjectionIsNotAMirror | proofbook/api/src/queries.ts:284-301 | Shown too high: a concrete pool at a 10% fee where the projection exceeds the floored share |
| Projection.LastClaimerIsPaidMore | proofbook/programs/proofbook/src/instructions/claim_winnings.rs:63-80 | Shown too low: a reachable market without a fee whose last claimer is shown 33 and paid 34 |
| Projection.ShownIsPaid | proofbook/api/src/queries.ts:285-333 | Where both fees coincide and the pot is a multiple of the winning pool, every open claim pays exactly what is shown |
| Projection.ShowsWhatIsPaidIff | proofbook/api/src/queries.ts:285-333 | For every split of the winning pool and every order of claims what is shown is what is paid, if and only if the fee on the losing pool is the fee on the whole pool and the pot is a multiple of the winning pool; each failing case is reached by a run |
| Projection.MirrorsFloorsIffFeesCoincide | proofbook/api/src/queries.ts:285-301 | The projection is the floored share for every stake exactly when the two fees coincide |
| Projection.TruncatesTowardZero | proofbook/api/src/queries.ts:297-300 | Division is that of BigInt, with the sign of the dividend on the remainder |
| Projection.NothingToShow | proofbook/api/src/queries.ts:296-296 | Without a winning pool nothing is shown |
| MarketAccount.CheckSpecs | proofbook/programs/proofbook/src/instructions/initialize_market.rs:71-73 | The loop over outcome specs accepts exactly if every spec has an operator iff it has a second stat |
| MarketAccount.OpenMarket | proofbook/programs/proofbook/src/instructions/initialize_market.rs:43-121 | An account is created exactly if every check passes in order, and then is valid, open and empty |
| MarketAccount.Market.AttachSpec | proofbook/programs/proofbook/src/instructions/initialize_combo_spec.rs:43-75 | Attaches a spec exactly if none is attached, the type is compound, the market is open and the spec is well-formed for it |
| MarketAccount.Market.PlaceBet | proofbook/programs/proofbook/src/instructions/place_bet.rs:41-115 | Succeeds exactly on an open market before lock time, for a covered positive stake on an existing outcome that is the bettor's own so far, with totals within 64 bits; then raises position, pool, total and vault together and touches nobody else |
| MarketAccount.Market.Lock | proofbook/programs/proofbook/src/instructions/lock_market.rs:15-34 | Locks exactly an open market at or after its lock time; stakes and vault stay |
| MarketAccount.Market.Settle | proofbook/programs/proofbook/src/instructions/settle_market.rs:31-150 | Both settlement instructions: success exactly on a locked market, for any of its outcomes, through its type's own path and on a true verdict; then settled with that outcome's pool and the fee, or cancelled if nobody staked it; stakes and vault stay |
| MarketAccount.Market.Cancel | proofbook/programs/proofbook/src/instructions/cancel_market.rs:22-53 | Cancels exactly a locked market strictly after a deadline that fits; stakes and vault stay |
| MarketAccount.Market.ClaimWinnings | proofbook/programs/proofbook/src/instructions/claim_winnings.rs:39-138 | On a valid account succeeds exactly for an open claim, pays a winner not paid before the floored share plus less than one unit per winner, and leaves the account valid |
| MarketAccount.Market.ClaimRefund | proofbook/programs/proofbook/src/instructions/claim_refund.rs:40-94 | Succeeds exactly for an unclaimed position of a cancelled market and pays exactly the stake, once |
| MarketAccount.Market.WithdrawFees | proofbook/programs/proofbook/src/instructions/withdraw_fees.rs:45-98 | Succeeds exactly on a settled market with a fee not yet withdrawn and pays it, once |
| MarketAccount.VaultIsAccountedFor | proofbook/programs/proofbook/src/state.rs:83-92 | On a valid account the vault plus all payments is what was staked or sent in |
| EscrowInvariant.StepInv | proofbook/programs/proofbook/src/lib.rs:155-174 | Every instruction, successful or refused, keeps the books, the ledger and the accounting of the reached status |
| EscrowAnswers.SucceedsIffAllowed | proofbook/programs/proofbook/src/lib.rs:155-174 | On every reachable market each instruction succeeds exactly when conditions on the fields, written out per instruction with their numbers, hold |
| EscrowAnswers.ErrorsTellTheTruth | proofbook/programs/proofbook/src/lib.rs:155-174 | Every error means what it says of the fields; nothing is refused for want of vault tokens or width except totals and deadlines beyond 64 bits |
| EscrowAnswers.FirstErrorWins | proofbook/programs/proofbook/src/lib.rs:155-174 | Where several checks fail the answer is that of the first, in the order listed per instruction |
| EscrowAnswers.InitializeIff | proofbook/programs/proofbook/src/instructions/initialize_market.rs:43-121 | A market is created exactly from a positive fixture id, a fee up to 10%, a positive timeout, 2 to 12 outcomes with matching operators and a lock time to come, and is then open and empty |
| EscrowAnswers.FirstCreationErrorWins | proofbook/programs/proofbook/src/instructions/initialize_market.rs:43-75 | Creation answers the first failing check |
| EscrowAnswers.StakesCloseAtLockTime | proofbook/programs/proofbook/src/instructions/place_bet.rs:50-51 | No run of instructions in which bets come at or after lock time changes any stake, pool or total, whether or not anybody has locked the market |
| EscrowAnswers.LateBetIsRefused | proofbook/programs/proofbook/src/instructions/place_bet.rs:50-51 | A bet at or after lock time changes nothing at all |
| EscrowAnswers.SettleIff | proofbook/programs/proofbook/src/instructions/settle_market.rs:31-150 | Any staked outcome, the last one included, can be settled exactly when it is proven through its type's path, and records its pool as the winning pool and the fee on the whole pool |
| EscrowInvariant.RunInv | proofbook/programs/proofbook/src/state.rs:83-92 | So does every run |
| EscrowInvariant.ClaimPays | proofbook/programs/proofbook/src/instructions/claim_winnings.rs:60-120 | For any open claim no checked step fails, the vault covers it, the claimer gets the floor, and the last one less than one unit per winner above it |
| EscrowInvariant.ClaimNeverStuck | proofbook/programs/proofbook/src/instructions/claim_winnings.rs:39-138 | An open claim on a settled market succeeds |
| EscrowInvariant.FloorsFit | proofbook/programs/proofbook/src/state.rs:88-92 | Summed over positions, the floors fit the pot and miss it by less than the number of winners |
| EscrowTheorems.ReachableInv | proofbook/programs/proofbook/src/state.rs:60-110 | Every state a run can reach has balanced books and accounts for every token staked or sent in |
| EscrowTheorems.VaultEndsEmpty | proofbook/programs/proofbook/src/state.rs:83-92 | Once every winner has claimed and the fee is withdrawn, or everyone is refunded, all stakes have been paid out and the vault holds exactly what outsiders sent to it |
| EscrowTheorems.WinnersGetTheirShare | proofbook/programs/proofbook/src/instructions/claim_winnings.rs:39-138 | On a settled market a claimed winner received the floor and less than the number of winners more; a loser received nothing |
| EscrowTheorems.RefundsAreExact | proofbook/programs/proofbook/src/instructions/claim_refund.rs:40-94 | A refund is exactly the stake |
| EscrowTheorems.RefundNeverStuck | proofbook/programs/proofbook/src/instructions/claim_refund.rs:40-94 | Every unclaimed position of a cancelled market can be refunded |
| EscrowTheorems.FeeNeverStuck | proofbook/programs/proofbook/src/instructions/withdraw_fees.rs:45-98 | The fee can be withdrawn exactly when there is one and it was not |
| EscrowTheorems.TerminalIsFinal | proofbook/programs/proofbook/src/state.rs:7-15 | A settled or cancelled market keeps its status, outcome and pools through any run |
| EscrowTheorems.NeverBothPay | proofbook/programs/proofbook/src/state.rs:7-15 | After a winnings claim no refund ever succeeds, and the other way round |
| EscrowTheorems.StepTransition | proofbook/programs/proofbook/src/state.rs:9-13 | Only the documented transitions happen |
| EscrowTheorems.StakesFreezeAtLock | proofbook/programs/proofbook/src/instructions/lock_market.rs:15-34 | Once a market has left Open its stakes never change |
| EscrowTheorems.SettledOnlyIfVerified | proofbook/programs/proofbook/src/instructions/settle_market.rs:31-90 | A market becomes settled only from locked, on a verified outcome somebody staked, through the path of its type |
| EscrowTheorems.CancellableIffDeadlineFits | proofbook/programs/proofbook/src/instructions/cancel_market.rs:22-43 | The time backstop exists exactly where lock time plus timeout is below the largest 64-bit time |
| EscrowTheorems.BackstopCanBeMissing | proofbook/programs/proofbook/src/instructions/initialize_market.rs:52-66 | A market passes initialization, takes a bet and locks, and then can never be cancelled |
| EscrowTheorems.RulesNeverChange | proofbook/programs/proofbook/src/instructions/initialize_combo_spec.rs:54-62 | No run changes a rule a market has; a combo spec is attached at most once and only while betting is open |
| EscrowTheorems.RulesAreFixedIff | proofbook/programs/proofbook/src/instructions/initialize_combo_spec.rs:54-62 | The rules of whoever has staked are fixed in every run exactly if the market is plain, has its spec already, or has left Open |
| EscrowTheorems.SpecCanFollowStakes | proofbook/programs/proofbook/src/instructions/initialize_combo_spec.rs:58-62 | A reachable compound market with a stake and no spec, to which one is then attached |
| EscrowTheorems.AttachedSpecFits | proofbook/programs/proofbook/src/instructions/initialize_combo_spec.rs:64-75 | An attached spec is well-formed for its market in every run |
| EndToEnd.EveryRunBalances | proofbook/programs/proofbook/src/state.rs:83-92 | From initialization through any run, tokens sent in by outsiders included: totals agree, vault plus payments is the total plus what was sent in, open claims, refunds and fees succeed, and of the stakes nothing is left at the end |
| EndToEnd.EveryRunPaysFairly | proofbook/programs/proofbook/src/state.rs:83-92 | From initialization through any run: nobody is paid twice; on a settled market only backers of the winner are paid, each the floored share plus less than one unit per winner; on a cancelled market exactly the stake |
| PropVaults.OpenVault | proofbook/programs/proofbook/src/instructions/prop_vault.rs:71-146 | A vault is created exactly if every check passes in order, and then is valid and holds the deposit |
| PropVaults.CreatedIffCreatable | proofbook/programs/proofbook/src/instructions/prop_vault.rs:71-146 | Creation succeeds exactly for a covered positive deposit, a positive fixture id, two different parties, a positive timeout, a lock time to come, and one to five legs read once each by at most five predicates |
| PropVaults.CreationAnswers | proofbook/programs/proofbook/src/instructions/prop_vault.rs:71-146 | It answers the first failing check, and otherwise a funded vault that holds exactly the deposit |
| PropVaults.ResolutionAnswers | proofbook/programs/proofbook/src/instructions/prop_vault.rs:189-334 | Settlement and cancellation answer their first failing check, settlement then the fault of the proof |
| PropVaults.PropVault.Settle | proofbook/programs/proofbook/src/instructions/prop_vault.rs:189-288 | Succeeds exactly on a funded vault at or after lock time with a verdict, refuses under the right name, and then everything ever received has gone to the side the verdict names |
| PropVaults.PropVault.Cancel | proofbook/programs/proofbook/src/instructions/prop_vault.rs:321-379 | Succeeds exactly on a funded vault strictly after a deadline that fits, and then everything ever received has gone back |
| PropVaults.RunsCompose | proofbook/programs/proofbook/src/instructions/prop_vault.rs:189-334 | A run is its instructions one after the other, refused ones changing nothing |
| PropVaults.EveryRunPaysOneSide | proofbook/programs/proofbook/src/state.rs:294-302 | From creation through any run: no money is made or lost, at most one side is ever paid, the beneficiary only if a proof said so, the depositor only if one said no or the deadline had passed |
| PropVaults.VaultPaysThePublished | proofbook/programs/proofbook/src/instructions/prop_vault.rs:207-219 | From creation through any run of genuine verdicts the beneficiary is paid only if the predicates hold of values published for the vault's fixture, the depositor only if they fail of such values or the deadline has passed |
| PropVaults.ResolutionEmptiesTheVault | proofbook/programs/proofbook/src/instructions/prop_vault.rs:221-247 | A resolution empties the account, transfers received meanwhile included |
| PropVaults.NobodyChoosesTheSide | proofbook/programs/proofbook/src/instructions/prop_vault.rs:207-219 | Two proofs for one vault, by anyone and from any published batches that agree on its legs, pay the same side: the beneficiary exactly if the predicates hold of the published values |
| PropVaults.CreatedVaultsAreEvaluable | proofbook/programs/proofbook/src/state.rs:304-312 | A created vault can be evaluated on all values: settlement never fails on coverage |
| PropVaults.RefundCanBeMissing | proofbook/programs/proofbook/src/instructions/prop_vault.rs:314-334 | Creation lets a vault through that can never be refunded by time |
| PropVaults.RefundableIffDeadlineFits | proofbook/programs/proofbook/src/instructions/prop_vault.rs:321-334 | The refund by time exists exactly where the deadline is below the largest 64-bit time |
| Codec.RoundTrip | proofbook/programs/proofbook/src/constants.rs:24-29 | For every schema and value: decoding the encoding, followed by any bytes, gives the value and stops where the encoding stops |
| Codec.FitsReservedSpace | proofbook/programs/proofbook/src/state.rs:113-125 | A value within its maximum lengths fits the space reserved for its schema |
| Codec.MaxLensLeaveNoTrace | proofbook/programs/proofbook/src/constants.rs:24-29 | Maximum lengths are not in the bytes |
| Codec.ReadsUnderOtherMaxLens | proofbook/programs/proofbook/src/constants.rs:23-29 | What was written under one limit reads back under any other |
| Accounts.SpaceIsSized | proofbook/programs/proofbook/src/state.rs:243-249 | Subtracting the unused legs and outcomes reserves exactly for those in use |
| Accounts.ValidatedComboFitsItsAccount | proofbook/programs/proofbook/src/state.rs:239-249 | The encoding of any validated combo spec fits the space allocated for its numbers of legs and outcomes |
| Accounts.ComboReadsBack | proofbook/programs/proofbook/src/state.rs:224-237 | Reading it back, with any padding and under any limits, gives the spec |
| Accounts.ComboValueInjective | proofbook/programs/proofbook/src/state.rs:224-237 | and loses nothing of it |
| Accounts.MarketFitsItsAccount | proofbook/programs/proofbook/src/state.rs:113-125 | A market with n outcomes, settled or not, fits the account sized for n |
| Accounts.VaultFitsItsAccount | proofbook/programs/proofbook/src/state.rs:351-357 | So does a prop vault with its own legs and predicates |
| Accounts.OldMarketsStillRead | proofbook/programs/proofbook/src/constants.rs:23-29 | Markets written with room for 8 outcomes occupy 615 bytes, read back the same after the limit was raised, and still fit when rewritten |
| Components.BuildAdjacency | proofbook/api/src/queries.ts:378-386 | The adjacency map holds exactly the teams that play, each with everyone it plays |
| Components.CodeLessIsDictionaryOrder | proofbook/api/src/queries.ts:390-406 | The order of codes is that of the default sort: the first difference decides, a proper prefix comes first |
| Components.Explore | proofbook/api/src/queries.ts:390-404 | The stack loop terminates and returns exactly the teams linked to its root, each once |
| Components.PushNeighbours | proofbook/api/src/queries.ts:397-402 | In whatever order neighbours are visited, each is pushed once and none is lost |
| Components.FindComponents | proofbook/api/src/queries.ts:388-407 | The components are sorted, pairwise disjoint classes that cover all teams, ordered by their first codes |
| Components.SameComponentIffLinked | proofbook/web/lib/tournament.ts:102-133 | Two teams share a component if and only if a chain of fixtures links them, and no team is in two |
| Components.ComponentsAreOrderFree | proofbook/api/src/queries.ts:377-407 | Listing the fixtures in another order gives the same list of components |
| Standings.PlayMatch | proofbook/api/src/queries.ts:445-468 | The field-by-field updates of the two rows add exactly what each side earned, even if a team plays itself |
| Standings.TallyMatches | proofbook/api/src/queries.ts:437-469 | After the loop every row is the sum of what its team earned over the counted matches |
| Standings.BuildTable | proofbook/api/src/queries.ts:409-488 | The table of a component has one row per team over all its matches, in comparator order, with the right counts |
| Standings.GetStandings | proofbook/api/src/queries.ts:369-489 | The whole report is a standings report in the sense below |
| Standings.ResolvedAre | proofbook/api/src/queries.ts:371-386 | The matches reported on are the fixtures with two known teams, in order, each with its scores and proof flag |
| Standings.RowsAreRanked | proofbook/api/src/queries.ts:473-479 | In every report, within a group: more points first, then the larger goal difference, then more goals, then the code; and groups carry consecutive letters |
| Standings.OneMatchReport | proofbook/api/src/queries.ts:369-489 | One proven match gives one group with the winner on top, every column written out |
| Standings.RowsAddUp | proofbook/api/src/queries.ts:445-472 | In every row played = won + drawn + lost, points = 3 won + drawn, and gd = gf - ga |
| Standings.GroupsBalance | proofbook/web/lib/tournament.ts:147-165 | In every group goals for equal goals against, goal differences cancel, wins and losses are the decisive matches between its own teams, and points are three for each of these and two for each of its draws |
| Standings.EveryMatchOnce | proofbook/api/src/queries.ts:409-413 | Every match with known teams has both teams in exactly one group and neither in any other, each group counts exactly the matches between its own teams, and the counts add up to all matches |
| Standings.StandingsAreOrderFree | proofbook/api/src/queries.ts:369-489 | Permuting the fixtures leaves the whole report unchanged |
| KeeperTheorems.AttemptsNeverOverlap | proofbook/keeper/src/core/settler.ts:42-60 | In every interleaving of sweeps, attempts and outsiders, whatever the reads show: at most one chain of attempts per market is in flight and stays within budget, and at most one sweep runs |
| KeeperTheorems.NeverContradictsChain | proofbook/keeper/src/core/settler.ts:42-202 | In every interleaving in which each read that is recorded shows a terminal status, a terminal phase and a receipt are what the chain says, however stale all reads are |
| KeeperTheorems.ReadIsSafeIffTerminal | proofbook/keeper/src/core/settler.ts:270-276 | Exactly the terminal reads are safe to record: such a read makes the memory wrong at no point of any run, and every other read does in some run |
| KeeperTheorems.CurrentReadsAreTerminal | proofbook/keeper/src/core/settler.ts:143-148 | A recorded read that shows the present state is terminal |
| KeeperSafety.StepKeeps | proofbook/keeper/src/core/marketManager.ts:131-209 | Every single event keeps order whatever the reads show, with what each suspended attempt and sweep relies on, and truth if the read it records is terminal |
| KeeperSafety.AttemptFails | proofbook/keeper/src/core/settler.ts:168-201 | Failing, with or without a retry left, keeps it |
| KeeperSafety.TerminalReadsAreFinal | proofbook/keeper/src/core/settler.ts:70-73 | A read that shows a terminal status shows the present one, however stale it is |
| KeeperTheorems.RestartIsSafe | proofbook/keeper/src/core/settler.ts:264-309 | After a crash at any moment and a reload of any earlier snapshot of the store, no record contradicts the chain, if the recorded reads before the snapshot and after the restart are terminal |
| KeeperTheorems.RunGrows | proofbook/keeper/src/core/settler.ts:68-73 | No transaction of anybody undoes a resolution |
| KeeperTheorems.FailureFreeSweepResolves | proofbook/keeper/src/core/marketManager.ts:131-209 | A whole sweep past the deadline without failures brings every locked, settling or error record whose market is past Open to a terminal phase before it ends, whatever others do meanwhile |
| KeeperProgress.FailureFreeSweepLocks | proofbook/keeper/src/core/marketManager.ts:141-176 | A whole sweep without failures that starts at or after lock time leaves no market with a created record open on chain, whatever others do meanwhile, unless the match is finalised first; and if nobody else sends it transactions the record says so |
| KeeperProgress.SweepsAreTimely | proofbook/keeper/src/core/marketManager.ts:141-180 | In every run, whatever fails: a sweep that is locking a market started at or after its lock time, one that is cancelling it past its deadline |
| KeeperProgress.BootIsTimely | proofbook/keeper/src/core/marketManager.ts:131-135 | A process that has just loaded its store satisfies this |
| KeeperProgress.FinalisedTooEarlyStaysOpen | proofbook/keeper/src/core/marketManager.ts:141-141 | A match finalised while its market is open and no lock is under way: no number of sweeps and attempts ever locks, settles or cancels the market, until somebody else sends it a transaction |
| KeeperProgress.OrdinarySweepLocks | proofbook/keeper/src/core/marketManager.ts:131-176 | A sweep at lock time, event by event, locks the market and ends |
| KeeperProgress.OrdinarySweepCancels | proofbook/keeper/src/core/marketManager.ts:178-209 | One a second past the deadline cancels it |
| KeeperVisits.LockedMeansLocked | proofbook/keeper/src/core/marketManager.ts:141-175 | In every run, whatever the reads show and whichever transactions fail: a record says locked only of a market that is past Open on chain |
| KeeperVisits.PickVisits | proofbook/keeper/src/core/marketManager.ts:136-184 | Resolved records are passed by; a created one is visited for locking exactly when due, a stuck one for cancelling exactly past the deadline |
| KeeperVisits.LockReadDecides | proofbook/keeper/src/core/marketManager.ts:142-170 | Only a market read as open is sent a lock, only one read as locked is noted as such, a failed read ends the sweep |
| KeeperVisits.LockReplyDecides | proofbook/keeper/src/core/marketManager.ts:146-164 | A lock that succeeds is noted; one that is refused leaves the record created for the next sweep |
| KeeperVisits.CancelReadDecides | proofbook/keeper/src/core/marketManager.ts:185-203 | Only a market read as locked is cancelled, one read as resolved is recorded as it was read |
| KeeperVisits.AdoptedAsSeen | proofbook/keeper/src/core/marketManager.ts:48-108 | An unknown market is adopted in the phase it was read in, open and missing ones as created |
| KeeperAttempts.FinalisationStartsIff | proofbook/keeper/src/core/settler.ts:42-58 | A finalisation starts an attempt exactly for a known, unresolved market with none under way |
| KeeperAttempts.FailuresAreRetriedWithinBudget | proofbook/keeper/src/core/settler.ts:168-201 | A failed attempt is tried again exactly while the error is worth it and the budget lasts; otherwise the record is in error and the market free for another finalisation |
| KeeperAttempts.FailureFreeAttemptRecords | proofbook/keeper/src/core/settler.ts:62-154 | An attempt without failures ends with the chain's terminal phase on record, and a receipt of the winner if it settled, whatever everybody else does meanwhile |
| KeeperAttempts.SettledHasReceipt | proofbook/keeper/src/core/settler.ts:264-309 | In every run in which recorded reads are terminal, a record that reaches phase settled by an attempt has a receipt with the winner on chain; only an adoption or a late sweep leaves a settled record without one |
| KeeperAttempts.SweepLeavesNoReceipt | proofbook/keeper/src/core/marketManager.ts:199-203 | The late sweep does: a concrete run |
| KeeperAttempts.SettlementCompletes | proofbook/keeper/src/core/settler.ts:62-154 | An ordinary settlement, event by event, ends with the receipt and nothing in flight |
| KeeperVisits.OutOfBandIsRecorded | proofbook/keeper/src/core/settler.ts:143-166 | A refusal as already resolved is followed by a read, and what it shows is recorded |
| KeeperVisits.FoundResolvedIsRecorded | proofbook/keeper/src/core/settler.ts:73-100 | So is a resolution found at the start of an attempt, with or without a proof |
| KeeperTheorems.InstructionsHappen | proofbook/programs/proofbook/src/state.rs:9-13 | and each of them can happen at any moment of a run |
| KeeperTheorems.CreationHappens | proofbook/programs/proofbook/src/instructions/initialize_market.rs:43-121 | A market may appear at any moment, open |
| KeeperTheorems.InstructionsAreMoves | proofbook/programs/proofbook/src/state.rs:9-13 | Every on-chain instruction is one of the moves the interleaving allows to outsiders |
| KeeperTheorems.SettleReplies | proofbook/programs/proofbook/src/instructions/settle_market.rs:37-43 | "Already resolved" is returned exactly for terminal markets whose rules exist for the path taken; success means locked before, terminal with the claimed winner after |
| Leader.ResolvesOnlyWithLock | proofbook/keeper/src/leader.ts:71-115 | `run()` resolves only for an instance whose own session was given the lock |
| Leader.AtMostOneLeads | proofbook/keeper/src/leader.ts:136-153 | Of two instances that believe they lead at most one has a live session; the other lost it at most one period and two queries ago |
| Leader.OverlapIsBounded | proofbook/keeper/src/leader.ts:154-193 | In no run do two instances both lead for longer than one verify period plus two queries |
| Leader.TwoCanLead | proofbook/keeper/src/leader.ts:136-153 | The overlap is real: a concrete run in which two instances lead, both past `run()`, at once |
| Leader.DeadLeaderCanBeJoined | proofbook/keeper/src/leader.ts:136-153 | From any world in which a leader's session is dead some run makes a second instance lead and act while the first still leads |
| Leader.StepInv | proofbook/keeper/src/leader.ts:80-200 | Every event keeps the lock with a live session and every leader within its grace |
| LeaderProgress.LeaderGoesIff | proofbook/keeper/src/leader.ts:154-200 | A leader leaves exactly on a failed verification, a broken connection it notices, or a stop, and no lock is left behind for it |
| LeaderProgress.OthersGoIfStopped | proofbook/keeper/src/leader.ts:186-193 | A process that does not lead goes only by being stopped |
| LeaderProgress.NeverStuck | proofbook/keeper/src/leader.ts:128-177 | A millisecond can always pass, unless a timer or the limit of a query is due, and then its event changes something |
| LeaderProgress.HealthyLeaderLeadsOn | proofbook/keeper/src/leader.ts:154-177 | A leader on a live session can verify every 15 seconds for as long as one likes |
| LeaderProgress.RefusedTriesAgain | proofbook/keeper/src/leader.ts:117-134 | A process refused or failed has no session and no lock and tries again exactly from 5 seconds later on |
| LeaderProgress.StandbyTakesOver | proofbook/keeper/src/leader.ts:80-134 | A standby due for its next try while the lock is free takes it and leads at that very time |
| Ingest.FixtureRecord.Ingest | proofbook/keeper/src/core/keeper.ts:288-324 | The in-place update is the specification, and tells the settlers exactly when it should |
| Ingest.SettlementStartsOnce | proofbook/keeper/src/core/keeper.ts:322-334 | Over any feed, in any order and with repeats, settlement starts exactly once if a finalisation arrives and never otherwise, with the number of the first |
| Ingest.ScoreIsLastReport | proofbook/keeper/src/core/keeper.ts:295-301 | The merged score is the last accepted report of each side |
| Ingest.RedeliveryIsHarmless | proofbook/keeper/src/core/keeper.ts:290-291 | Delivering an update twice in a row changes nothing |
| Ingest.AcceptedAscend | proofbook/keeper/src/core/keeper.ts:290-292 | Until the match is final, accepted sequence numbers only go up |
| Ingest.InOrderIsTaken | proofbook/keeper/src/core/keeper.ts:290-292 | A feed whose numbers only go up is taken whole |
| Ingest.FinalIsTaken | proofbook/keeper/src/core/keeper.ts:290-291 | A finalisation, status 100, is taken whatever its number |
| Ingest.StatusIsLastReport | proofbook/keeper/src/core/keeper.ts:293-294 | The status is the last one an accepted update carried, the time that of the last accepted update |

## Left out

- KeeperTheorems.NeverContradictsChain: the code does not check that the read it records is
  terminal, so this is a condition on the run; `ReadIsSafeIffTerminal` shows it to be exact.
- PublishedTruth.OnlyOneOutcomeVerifies: assumes, like the three results beside it, that the
  batches used publish no stat of the market with two values. Nothing in the program checks
  this, and `ConflictingBatches.TwoOutcomesCanVerify` shows that it is needed.
- Leader.OverlapIsBounded: timers fire when due and a query ends within a given limit, which
  no query timeout enforces; an `onAcquire` that throws (the keeper passes one that does
  nothing) is not modelled.
- Standings.StandingsAreOrderFree: `localeCompare` is any comparison that strictly orders the
  team codes that occur; a locale that ties two of them is outside the model.
- Keeper and leader are modelled on values, as state machines whose events are the code
  between two awaits, not as classes: Dafny methods cannot be suspended.
- Overlapping calls of `ensureMarket` for one fixture, which would replace a record object
  while an attempt still holds the old one.
- The API's own copy of the chain, from which `Projection` takes pools and stakes as current.
- Retry delays and the wording of errors: whether an error is retriable is a parameter.
- The flush timing of the stores; a restart may load any earlier snapshot.
- The catalogue settler beyond `claimedOutcomeFor`, and the building of v3 proofs from
  network responses.
- Account addresses and owners: instructions act on the right market, position, vault and
  treasury; wrong accounts are refused by the framework.
- Concrete keccak and its domain separation: soundness names the collisions it excludes.
- The TxLINE oracle itself; only the bundled oracle's algorithm is in the repository.
- Which fixtures are group-stage is decided by a query, and is given here.
- `withPeriod`, which rebinds a type's legs to the period of a fixture's proof, and the wording
  of the self-check's errors.
- Pages, formatting, odds, notifications, faucet and one-off scripts.
