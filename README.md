# Praxos core, modelled in Dafny

Praxos bundles real-world-asset (RWA) tokens into vaults. Four parts of the
repository are modelled here, one Dafny module each.

- `Praxos` (`praxos.dfy`) covers the vault factory and its vaults as the
  contract test suite `test/Praxos.test.js` fixes their behaviour:
  - `Factory.CreateVault` validates a vault configuration and deploys the vault.
    It seeds the allocation table with one `addAsset` per pair, records the
    vault and its `VaultCreated` event, and hands ownership to the creator.
  - Each `Vault` keeps an owner-only allocation table (`AddAsset`,
    `UpdateAllocation`, `RemoveAsset`).
  - It takes deposits in the style of EIP-4626 `deposit(assets, receiver)`.
  - It has single-step `TransferOwnership`.
  - Every call is atomic: a call that fails changes nothing.
- `EnvUpdater` (`env_updater.dfy`) covers `updateEnvAddresses` of
  `scripts/environment/envUpdater.mjs`:
  - the per-line rewrite of `KEY=value` lines;
  - the missing keys, appended in key order;
  - the create-if-absent branch and the `.env.example` branch.

  The file system is a map from path to content.
- `SuggestionEngine` (`suggestion_engine.dfy`) covers the vault recommender of
  `offchain/ai_agent/suggestion_engine.py`:
  - risk, timeframe and yield scoring;
  - the reasoning text;
  - the agent's registry;
  - the ranking: a stable sort by score, a filter on a score of at least 50,
    and a Python slice.
- `RiskModel` (`risk_model.dfy`) covers the risk simulator of
  `offchain/simulation/risk_model.py`:
  - the clamped credit, volatility, liquidity and counterparty figures;
  - whole days to maturity;
  - the per-address signature cache.

Classes stand for objects whose fields change in place: `Praxos.Vault`,
`Praxos.Factory`, `SuggestionEngine.Agent` and `RiskModel.RiskSimulator`.
Their methods are specified against pure functions: `CreateError`,
`UpdateLines`, `Suggestions` and `Signature`. Lemmas prove what the source
promises about those functions.

A few choices that the tests and the code leave open:

- **Ownership of a new vault.** A vault created by the factory's owner keeps
  the factory contract as its owner (the comment at test/Praxos.test.js:311).
  A vault created by anyone else is owned by its creator
  (test/Praxos.test.js:301). The model follows both: `CreateVault` leaves the
  factory contract (`Factory.self`) as the owner when the caller is the
  factory's owner, and transfers ownership to the caller otherwise.
- **Empty arrays.** The only empty-array test (test/Praxos.test.js:178-192)
  passes both arrays empty and expects "No assets provided". The model checks
  in the order of the rejection tests at test/Praxos.test.js:140-211: base
  asset, array lengths, emptiness, weight sum. That order is a choice those
  tests leave open. An empty `assets` array with non-empty `weights`
  therefore reports "Mismatched arrays"; no test fixes that case.
- **Seeding.** The factory seeds a new vault through the checks of `addAsset`.
  A repeated asset, the zero address or a zero weight in the configuration
  reverts the whole creation.
- **`addAsset` check order.** `addAsset` checks in this order: owner,
  duplicate, zero address, zero weight.
- **`updateAllocation` accepts any weight.** The tests only update a weight
  to another positive one (test/Praxos.test.js:391-405). Nothing in them
  rejects a zero weight or a weight that breaks the 10000 total, so the
  model's `UpdateAllocation` accepts any new weight, zero included, and does
  not re-check the total.
- **Keys of the `.env` update.** The idempotence and stability lemmas assume
  well-formed keys and values (`EnvUpdater.WellFormed`): a key holds no '=',
  no white space and does not begin with '#', and a value holds no line
  break. That condition is sufficient, not necessary: for some other keys
  the source's rewrite is not idempotent. A key beginning with '#' writes a line that reads as a comment, so that key is
  never found again and each update appends it once more
  (`CommentKeyAppendedAgain`).
- **Liquidity at 0 days.** The days to maturity are rounded down, so a token
  whose maturity is past or less than a day away has 0 days to maturity and
  gets no maturity bonus, the same as a token without maturity. Liquidity
  therefore rises as a maturity approaches and drops to the no-bonus level
  once less than a full day remains, so it is monotone in the days only for
  positive day counts (`PastMaturityLosesBonus`).
- **Removal.** `removeAsset` keeps the remaining entries in their order.
- **Deposit errors.** The base-asset transfer checks the allowance before the
  balance, and an allowance of 2^256 - 1 is never used up. This follows
  OpenZeppelin's ERC-20. The errors `InvalidOwner` and `InvalidReceiver`
  follow OpenZeppelin v5 `Ownable` and `ERC20`.
- **Share minting.** The model mints `amount * supply / total`, and one for one
  into an empty vault. No withdrawals or yield exist, so shares always equal
  deposits one for one.
- **Python values:**
  - floats are exact reals;
  - a falsy `min_yield` means `None` or `0.0`;
  - a missing `target_duration` or `expected_yield` counts as 0.

## Model

| member | source | states |
|---|---|---|
| Praxos.Factory.constructor | test/Praxos.test.js:72-79 | Given the factory contract's non-zero address, a fresh factory has no vaults, no events, and the deployer as owner |
| Praxos.Factory.CreateVault | test/Praxos.test.js:98-110 | Creation fails exactly when `CreateError(c)` reports an error; it reports that error and registers nothing. On success the new, distinct vault is appended to the registry and counted by `GetVaultCount`. A `VaultCreated(vault, creator, strategy, riskTier)` event is logged. The vault stores the configuration's metadata and exactly the input assets and weights in input order. It is owned by the caller unless the caller is the factory's owner. It starts with no shares and no assets |
| Praxos.CreateSucceedsIff | test/Praxos.test.js:140-211 | `createVault` succeeds if and only if all of these hold: the base asset is non-zero; the arrays are non-empty and of equal length; the weights sum to 10000; no asset repeats; no asset is zero; and no weight is zero |
| Praxos.ConfigErrors | test/Praxos.test.js:140-211 | Each configuration fault gets its own error: invalid base asset, mismatched arrays, no assets provided, weights must sum to 10000 |
| Praxos.SeedErrorFromIff | test/Praxos.test.js:352-357 | Seeding the table pair by pair through the `addAsset` checks fails exactly when the input has a repeated asset, a zero address or a zero weight |
| Praxos.CreatedTableValid | test/Praxos.test.js:213-251 | The table of every created vault is well formed: parallel arrays, distinct non-zero assets, positive weights summing to 10000 |
| Praxos.Vault.constructor | test/Praxos.test.js:344-350 | A new vault stores name, symbol, strategy, risk tier and target duration, has an empty table, and has nothing deposited |
| Praxos.Vault.AddAsset | test/Praxos.test.js:361-389 | A non-owner is rejected as unauthorized. A duplicate asset, the zero address and a zero weight are each rejected with their own error and change nothing. Otherwise the asset and its weight are appended, which raises the count by one and makes the asset supported |
| Praxos.Vault.UpdateAllocation | test/Praxos.test.js:391-405 | The owner replaces the asset's weight in place and gets back the (old, new) pair. An absent asset fails with "Asset not found", and a non-owner is rejected. Failures change nothing |
| Praxos.Vault.RemoveAsset | test/Praxos.test.js:407-421 | The owner drops the asset and its weight, so the asset is no longer supported and the count falls by one. The other entries keep their order. An absent asset fails with "Asset not found" and changes nothing |
| Praxos.Vault.Deposit | test/Praxos.test.js:431-477 | If the allowance or the balance is short, the deposit fails with the token's error and changes nothing. Otherwise `totalAssets` grows by exactly the amount, the receiver is credited the minted shares, and the payer is debited. Shares equal the amount |
| Praxos.Vault.TransferOwnership | test/Praxos.test.js:339-340 | Only the current owner may transfer ownership, and only to a non-zero address. Nothing else changes |
| Praxos.Vault.GetAllocations | test/Praxos.test.js:354-356 | The allocation arrays of a well-formed vault are parallel and never hold the zero address |
| Praxos.Vault.GetAssetCount | test/Praxos.test.js:353 | The asset count is the length of the allocation arrays |
| Praxos.Vault.IsSupportedAsset | test/Praxos.test.js:364 | An asset is supported exactly when it is in the allocation table; the zero address never is |
| Praxos.Vault.BalanceOf | test/Praxos.test.js:439 | An account that never received shares has a balance of 0 |
| Praxos.Vault.GetVaultInfo | test/Praxos.test.js:482-486 | The vault info reports the stored strategy, risk tier and target duration, and the current asset count |
| Praxos.Factory.GetVaultCount | test/Praxos.test.js:109 | The vault count is the length of the registry |
| Praxos.Factory.IsVault | test/Praxos.test.js:108 | A vault is recognised exactly when it is in the registry |
| Praxos.Factory.GetAllVaults | test/Praxos.test.js:248-250 | The registry lists each vault once, in creation order, with its creation event at the same position of the log |
| Praxos.SharesOneForOne | test/Praxos.test.js:443-451 | While shares and deposits are one for one, a deposit mints exactly its amount, so a positive first deposit mints 0 < shares <= amount |
| Praxos.WeightTotalNotKept | test/Praxos.test.js:361-364 | `addAsset` accepts a new asset on a table already summing to 10000. The weights then sum to more than 10000, and the table stays well formed |
| Praxos.UpdateMovesTotal | test/Praxos.test.js:391-405 | `updateAllocation` accepts any new weight, zero included, without re-checking the total. The total moves by the difference and the table stays well formed |
| Praxos.AppendPreservesTable | test/Praxos.test.js:361-365 | An accepted `addAsset` keeps the table well formed and adds exactly the new asset |
| Praxos.RemovePreservesTable | test/Praxos.test.js:407-415 | Removal keeps the table well formed and drops exactly the removed asset |
| Praxos.DeployConfigAccepted | scripts/deploy.mjs:59-75 | The demo configuration (weights 4000, 4000 and 2000 over three distinct assets) passes every creation check |
| EnvUpdater.JoinSplit | scripts/environment/envUpdater.mjs:38-66 | Splitting on newlines and joining again gives back the original content |
| EnvUpdater.SplitJoin | scripts/environment/envUpdater.mjs:38-66 | Joining newline-free lines and splitting again gives back the lines |
| EnvUpdater.Split | scripts/environment/envUpdater.mjs:38 | Splitting on '\n' gives at least one line, and no line holds '\n' |
| EnvUpdater.Join | scripts/environment/envUpdater.mjs:66 | The joined text starts with the first line, and the result holds a '\n' when there are two or more lines (the exact round trip is `JoinSplit` and `SplitJoin`) |
| EnvUpdater.TrimTrims | scripts/environment/envUpdater.mjs:45 | Neither end of a trimmed line is white space, and a line without white space at its ends is its own trim |
| EnvUpdater.RewriteLine | scripts/environment/envUpdater.mjs:43-57 | A line is either kept or replaced by the `KEY=value` line of one of the keys. Comment and blank lines are always kept |
| EnvUpdater.UpdateLines | scripts/environment/envUpdater.mjs:38-64 | The output has at least as many lines as the input and at most one more per key (that existing lines keep their positions is `ExistingLinesInPlace`) |
| EnvUpdater.UpdateContent | scripts/environment/envUpdater.mjs:12-13 | With no keys, the content is left untouched |
| EnvUpdater.CreatedContent | scripts/environment/envUpdater.mjs:32 | A created file is empty without keys, starts with the first key's `KEY=value` line, and puts a line break between two or more keys |
| EnvUpdater.MatchKey | scripts/environment/envUpdater.mjs:49-55 | The loop over the keys finds the first key, in key order, whose `KEY=` starts the trimmed line |
| EnvUpdater.RewriteEnvLines | scripts/environment/envUpdater.mjs:38-64 | The map-and-push loops compute `UpdateLines`: every line rewritten, then the settings of the keys not found, appended |
| EnvUpdater.UpdateEnvAddresses | scripts/environment/envUpdater.mjs:22-108 | A missing `.env` is created with one `KEY=value` line per key, and `.env.example` is not touched. Otherwise `.env` is rewritten. When requested, `.env.example` is rewritten too, or created if it is absent |
| EnvUpdater.ExistingLinesInPlace | scripts/environment/envUpdater.mjs:43-64 | Comment and blank lines, and lines matching no key, are unchanged. A line claimed by a key becomes exactly `KEY=value`. Existing lines keep their positions. The output has as many lines as the input plus the missing keys, which come last in key order |
| EnvUpdater.PresentKeysIff | scripts/environment/envUpdater.mjs:49-54 | A key is recorded as present exactly when some non-skipped line is claimed by it |
| EnvUpdater.MissingKeysIff | scripts/environment/envUpdater.mjs:59-64 | A key is appended exactly when it is among the keys and was not found |
| EnvUpdater.EveryKeyWritten | scripts/environment/envUpdater.mjs:43-64 | Every key's `KEY=value` line appears in the output |
| EnvUpdater.RewriteLineStable | scripts/environment/envUpdater.mjs:43-57 | For well-formed keys and values (`WellFormed`), rewriting a line twice gives the same line as rewriting it once, and the line stays claimed by the same key
| EnvUpdater.OutputLinesStable | scripts/environment/envUpdater.mjs:43-57 | For well-formed keys and values, every output line is a fixed point of the line rewrite
| EnvUpdater.AllKeysPresent | scripts/environment/envUpdater.mjs:43-64 | For well-formed keys and values, every key is found in the output of one update
| EnvUpdater.UpdateLinesIdempotent | scripts/environment/envUpdater.mjs:43-64 | For well-formed keys and values, a second update of the lines with the same addresses changes nothing
| EnvUpdater.UpdateContentIdempotent | scripts/environment/envUpdater.mjs:38-66 | For well-formed keys and values, a second update of the file content with the same addresses changes nothing
| EnvUpdater.SettingClaimedByKey | scripts/environment/envUpdater.mjs:49-54 | For well-formed keys and values, a written `KEY=value` line is claimed by its own key, not by another
| EnvUpdater.CommentKeyAppendedAgain | scripts/environment/envUpdater.mjs:45-64 | For the key "#A", one update of an empty file appends `#A=v`, and a second update appends it again: the written line reads as a comment and the key is never found |
| EnvUpdater.CreatedLines | scripts/environment/envUpdater.mjs:32 | For well-formed keys and values, a created file reads back as exactly one `KEY=value` line per key, in key order |
| SuggestionEngine.Agent.RegisterVault | offchain/ai_agent/suggestion_engine.py:56-72 | Registration appends the vault and keeps registration order |
| SuggestionEngine.Agent.SuggestVaults | offchain/ai_agent/suggestion_engine.py:74-114 | The loop-sort-filter-slice computes `Suggestions`. The result is sorted by non-increasing score, has only scores of at least 50, holds at most `max_recommendations` entries, and is built from registered vaults |
| SuggestionEngine.Agent.constructor | offchain/ai_agent/suggestion_engine.py:53-54 | A new agent has an empty registry |
| SuggestionEngine.Suggestions | offchain/ai_agent/suggestion_engine.py:74-114 | The suggestions number at most the registered vaults and at most `max_recommendations`, and each scores at least 50 |
| SuggestionEngine.SuggestionsRanked | offchain/ai_agent/suggestion_engine.py:91-114 | The ranking holds exactly the recommendations scoring at least 50, and the result is a prefix of it. No omitted one outscores a returned one. Equal scores keep registration order. The result is sorted, bounded, and drawn from the registry |
| SuggestionEngine.RiskTierByDistance | offchain/ai_agent/suggestion_engine.py:149-166 | The risk score depends only on the tier distance: it is 100 exactly at distance 0, falls as the distance grows, and is symmetric above and below |
| SuggestionEngine.MatchRiskTier | offchain/ai_agent/suggestion_engine.py:149-166 | The risk score lies in [20, 100], and is at least 80 exactly when the tier is at most one away from the tolerance |
| SuggestionEngine.CheckTimeframeMatch | offchain/ai_agent/suggestion_engine.py:168-179 | A vault without a target duration matches the short term and no other timeframe |
| SuggestionEngine.TimeframesPartition | offchain/ai_agent/suggestion_engine.py:168-179 | The short, medium and long buckets do not overlap and cover every duration |
| SuggestionEngine.YieldPoints | offchain/ai_agent/suggestion_engine.py:128-137 | A falsy minimum yield gives the neutral 10 points. A vault yield at or above the minimum gives the full 20. The points are never negative |
| SuggestionEngine.MatchScore | offchain/ai_agent/suggestion_engine.py:116-147 | The match score always lies in [0, 100] |
| SuggestionEngine.Reasons | offchain/ai_agent/suggestion_engine.py:188-202 | There is at least one reason. The fallback sentence is used exactly when the risk is more than one tier off, the timeframe misses, and the yield is not positive |
| SuggestionEngine.GenerateReasoning | offchain/ai_agent/suggestion_engine.py:181-204 | The reasoning is never empty and ends with "." |
| SuggestionEngine.Recommend | offchain/ai_agent/suggestion_engine.py:91-106 | A recommendation copies address, name and risk tier from its vault, and its score lies in [0, 100] |
| SuggestionEngine.Slice | offchain/ai_agent/suggestion_engine.py:114 | Python's `s[:n]` is a prefix of `s`: the first `n` elements for `n >= 0`, and all but the last `-n` for `n < 0` |
| SuggestionEngine.InsertSorted | offchain/ai_agent/suggestion_engine.py:108-109 | Inserting into a descending list keeps it descending |
| SuggestionEngine.InsertPermutes | offchain/ai_agent/suggestion_engine.py:108-109 | Inserting adds exactly the element and loses nothing |
| SuggestionEngine.SortByScore | offchain/ai_agent/suggestion_engine.py:108-109 | The sort keeps the number of recommendations |
| SuggestionEngine.SortSorted | offchain/ai_agent/suggestion_engine.py:108-109 | The sort returns a list in non-increasing score order |
| SuggestionEngine.SortPermutes | offchain/ai_agent/suggestion_engine.py:108-109 | The sort returns a permutation of its input |
| SuggestionEngine.SortStable | offchain/ai_agent/suggestion_engine.py:108-109 | The sort is stable: for every score, the entries with that score keep their order |
| SuggestionEngine.AtLeast | offchain/ai_agent/suggestion_engine.py:111-112 | The filter never lengthens the list, and every kept entry scores at least the threshold |
| SuggestionEngine.AtLeastMembers | offchain/ai_agent/suggestion_engine.py:111-112 | The filter keeps exactly the entries scoring at least the threshold |
| SuggestionEngine.AtLeastSorted | offchain/ai_agent/suggestion_engine.py:111-112 | Filtering a sorted list leaves it sorted |
| SuggestionEngine.AtLeastStable | offchain/ai_agent/suggestion_engine.py:111-112 | For every score at or above the threshold, the filter keeps all entries with that score, in order |
| SuggestionEngine.RankedMembers | offchain/ai_agent/suggestion_engine.py:108-112 | Sorting then filtering yields a sorted list holding exactly the recommendations that score at least 50 |
| SuggestionEngine.RankedStable | offchain/ai_agent/suggestion_engine.py:108-112 | Sorting then filtering keeps the recommendations of each score of at least 50 in registration order |
| SuggestionEngine.SuggestionsFromRegistry | offchain/ai_agent/suggestion_engine.py:91-114 | Every suggestion is the recommendation built for some registered vault |
| SuggestionEngine.RecommendEach | offchain/ai_agent/suggestion_engine.py:89-106 | The loop builds one recommendation per registered vault, in registration order |
| SuggestionEngine.CutOfRanking | offchain/ai_agent/suggestion_engine.py:111-114 | A slice of a sorted ranking is sorted, bounded, and keeps the best-scoring entries and the order of equal scores |
| RiskModel.MaturityDays | offchain/simulation/risk_model.py:60-66 | The days to maturity are 0 for no maturity or a past one. Otherwise they are the whole days to maturity, rounded down. They are never negative |
| RiskModel.Duration | offchain/simulation/risk_model.py:61-66 | Duration is 0 without maturity and never negative. With a maturity it is the days over 365, so it reaches one year exactly at 365 days
| RiskModel.CreditScore | offchain/simulation/risk_model.py:71-75 | The credit score is clamped to [0, 100] |
| RiskModel.Volatility | offchain/simulation/risk_model.py:102-120 | Volatility never exceeds 1.0, and is non-negative for tiers of 1 and above |
| RiskModel.MaturityBonus | offchain/simulation/risk_model.py:133-142 | The liquidity bonus lies in [-10, 20] and is 0 without maturity
| RiskModel.MaturityBonusMonotone | offchain/simulation/risk_model.py:133-140 | For a positive number of days, a later maturity never gets a larger bonus |
| RiskModel.DurationMonotone | offchain/simulation/risk_model.py:65-66 | More days to maturity never give a shorter duration |
| RiskModel.Liquidity | offchain/simulation/risk_model.py:122-148 | The liquidity score is an integer clamped to [0, 100] |
| RiskModel.CounterpartyRisk | offchain/simulation/risk_model.py:150-167 | Counterparty risk is clamped to [0, 100] |
| RiskModel.Signature | offchain/simulation/risk_model.py:34-100 | The signature keeps the address, type and tier. Its yield is the basis points over 100. Days and duration are non-negative, and every score lies within its bounds |
| RiskModel.RiskSimulator.SimulateRisk | offchain/simulation/risk_model.py:86-100 | The signature is stored under its address, replacing an earlier one in place and leaving every other entry as it was |
| RiskModel.RiskSimulator.GetRiskSignature | offchain/simulation/risk_model.py:169-173 | Returns the cached signature, or an error for an address never simulated |
| RiskModel.RiskSimulator.GetAllSignatures | offchain/simulation/risk_model.py:175-177 | Returns every cached signature once, in insertion order |
| RiskModel.RiskSimulator.constructor | offchain/simulation/risk_model.py:31-32 | A new simulator has an empty cache |
| RiskModel.CreditScoreMonotone | offchain/simulation/risk_model.py:71-75 | A lower tier or a higher yield never lowers the credit score |
| RiskModel.VolatilityMonotone | offchain/simulation/risk_model.py:112-114 | A higher tier never lowers volatility |
| RiskModel.LiquidityMonotone | offchain/simulation/risk_model.py:133-148 | For positive day counts, a lower tier or a shorter maturity never lowers liquidity
| RiskModel.PastMaturityLosesBonus | offchain/simulation/risk_model.py:60-142 | A maturity 50 seconds away already counts as 0 days. At 0 days a corporate bond of tier 5 has liquidity 75, less than the 95 it has at 50 days: liquidity is not monotone across 0 days |
| RiskModel.NoMaturityNeutral | offchain/simulation/risk_model.py:141-142 | A token without maturity gets neither liquidity bonus nor penalty |
| RiskModel.CounterpartyRiskMonotone | offchain/simulation/risk_model.py:160-167 | A lower tier or a better credit score never raises counterparty risk |

## Left out

- The Solidity sources of `PraxosFactory` and `PraxosVault` are not part of
  this model. Their behaviour is taken from test/Praxos.test.js.
- ERC-20 internals of the base asset are not modelled:
  - the depositor's balance and allowance are a `Payer` value passed in and
    returned debited;
  - the vault's token balance and share-token transfers are not modelled.
- The ERC-3643 mock tokens carry no behaviour the tests rely on.
- Event decoding from receipt topics is left out. Emitted events are an
  appended log (`VaultCreated`) or return values (`AllocationUpdated`,
  `AssetRemoved`). The EIP-4626 `Deposit` event is not modelled; the
  `caller` argument of `Vault.Deposit` would only be that event's sender, so
  it has no effect in the model.
- Integer widths are not modelled:
  - the weight sum and share arithmetic are unbounded `nat`;
  - no `uint256` overflow is modelled;
  - only the maximal allowance value matters.
- Hardhat signers and `msg.sender` plumbing are left out. The caller is an
  explicit address argument.
- For `.env` updates, `fs.existsSync`, `readFileSync` and `writeFileSync`
  become a map from path to content. Path resolution and console messages
  are left out.
- The `.2f` yield formatting in the reasoning text is the parameter
  `formatYield`. Float rounding is left out everywhere.
- The unused placeholder `vault.get("assets", [])` and the unused `score`
  argument of `_generate_reasoning` are left out.
- The default branch `return True` of `_check_timeframe_match` cannot be
  reached with a `Timeframe` and is left out.
- A vault dictionary missing `address`, `name` or `risk_tier` (a Python
  `KeyError`) cannot be expressed with the `VaultInfo` datatype.
- The `datetime.now()` default of `simulate_risk` is left out.
  `currentTimestamp` is a required argument.
- The default `exampleEnv = false` of `updateEnvAddresses` is not modelled.
  `UpdateEnvAddresses` takes the flag as a required argument.
- The default `max_recommendations = 5` of `suggest_vaults` is not modelled.
  `SuggestVaults` takes the bound as a required argument.
- The `__main__` demo blocks, `scripts/deploy.mjs` orchestration, the ABI
  scripts and the whole frontend are left out.
- RiskModel.Volatility, RiskModel.CreditScore and RiskModel.CounterpartyRisk
  state bounds, not exact values, for their fractional results.
