# Markets, a resource store and sums to n, in Dafny

This project models four parts of a code-challenge repository, and proves properties of them.

- **Market types of a Cosmos SDK exchange module** (`src/problem6/market/types`):
  - the `Market` record and its partial update `Mutate`;
  - the basic validation of a market (`ValidateBasic`), with every rule in the source's order and the error each rule reports;
  - the margin arithmetic: maximum leverage, initial and maintenance margin, fee margin, and step-size bounds;
  - expiry, activity and the filters over lists of markets;
  - the module parameters: defaults, the eighteen validators and the parameter-set pairs.
- **The `crude` module's resource store** (`src/problem5/crude/x/crude`):
  - the genesis check: ids must be distinct and below the count;
  - the keeper: resources by id, plus a count held as 8 big-endian bytes;
  - the create, update and delete message handlers.
- **Three exercise files** that compute 1 + 2 + … + n three ways each:
  - `src/problem4/problem4.go`;
  - `src/problem1/problem1.js`;
  - `src/problem1/three_ways_to_sum_to_n.js`.

Numbers:
- `sdk.Dec` is an integer scaled by 10^18.
- `sdkmath.Int` and Go's `int` are unbounded integers.
- `uint32`, `uint64` and `int64` are subset types. Their wrap-around is written out where the source can overflow: `PrecisionDifference` and the resource count.
- A time is an integer count of nanoseconds since the Unix epoch. `time.Duration` is an `int64` count of nanoseconds.
- `Dec.Mul` rounds half to even at 18 decimals, as the library does.
- `Dec.Quo` scales, divides with truncation toward zero, then rounds.
- `QuoTruncate` and `Int.Quo` truncate toward zero.
- JavaScript arguments are integers. JavaScript's `/` gives a `real`.

Go's pointers to a market become the class `MarketRef`; its `Mutate` rewrites the referenced market in place. The keeper is the class `Keeper`, whose fields are the store's contents. Block time, the store service and the codec are not modelled as objects: block time is a parameter, and the store is the keeper's fields.

Where the module's written description and its code disagree, the model follows the code:
- `RequiredInitialMargin` divides by `RiskStepSize` with no zero guard. A zero step size therefore panics; it does not give a step term of 0.
- A spot market with lot size 1 and tick size 0.01 fails `ValidateBasic`, because tick × lot must be an integer. The sample market in the model uses lot size 100 and minimum quantity 100.

## Model

| member | source | states |
|---|---|---|
| MarketTypes.ExpiryUnix | src/problem6/market/types/market.go:121-123 | `ExpiryTime.Unix()` is the floor of the nanoseconds over 10^9: the whole second that contains the expiry time |
| MarketTypes.Patched | src/problem6/market/types/market.go:31-50 | each field the patch sets replaces the market's, every other field is kept, and the name is never changed |
| MarketTypes.MarketRef.Mutate | src/problem6/market/types/market.go:31-50 | the referenced market becomes the patched market and keeps its name |
| MarketTypes.EmptyPatchIsIdentity | src/problem6/market/types/market.go:31-50 | a patch that sets no field leaves the market unchanged |
| MarketTypes.PatchIdempotent | src/problem6/market/types/market.go:31-50 | applying the same patch twice is applying it once |
| MarketTypes.PatchesCompose | src/problem6/market/types/market.go:31-50 | two patches in a row are one patch in which the later patch's set fields win |
| MarketTypes.PrecisionDifference | src/problem6/market/types/market.go:55-57 | quote minus base precision, wrapped into int64; exact when the difference fits |
| MarketTypes.PrecisionDifferenceRestoresQuote | src/problem6/market/types/market.go:52-57 | base precision plus the difference gives back the quote precision in int64 arithmetic |
| MarketExpiry.IsFutures | src/problem6/market/types/market.go:113-115 | the market type is futures; `PerpetualMeansFirstSecond` and `NeverExpiring` use it |
| MarketExpiry.IsSpot | src/problem6/market/types/market.go:117-119 | the market type is spot; `NeverExpiring` shows a spot market never expires |
| MarketExpiry.IsPerpetualFutures | src/problem6/market/types/market.go:121-123 | a futures market whose expiry second is 0; `PerpetualMeansFirstSecond` states it as an expiry time in [0, 10^9) ns |
| MarketExpiry.IsMarketBeforeExpiry | src/problem6/market/types/market.go:70-78 | true for non-futures and perpetual markets, otherwise while the block time is before the expiry; `NeverExpiring`, `DatedFuturesExpiry` and `ExpiryIsPermanent` state it |
| MarketExpiry.IsMarketActive | src/problem6/market/types/market.go:64-67 | the active flag and before expiry; `ExpiryIsPermanent` shows inactivity is permanent once expired |
| MarketExpiry.PerpetualMeansFirstSecond | src/problem6/market/types/market.go:121-123 | a market is perpetual exactly when it is futures and expires within the first second of the epoch |
| MarketExpiry.NeverExpiring | src/problem6/market/types/market.go:70-78 | spot markets and perpetual futures are before expiry at every block time |
| MarketExpiry.DatedFuturesExpiry | src/problem6/market/types/market.go:70-78 | a dated futures market is before expiry exactly while the block time is strictly before its expiry time |
| MarketExpiry.ExpiryIsPermanent | src/problem6/market/types/market.go:64-78 | once a market is expired or inactive at some time, it stays so at every later time |
| MarketExpiry.FilterMembership | src/problem6/market/types/market.go:80-100 | a market is kept by a filter exactly when it is in the list and satisfies the predicate |
| MarketExpiry.FilterConcat | src/problem6/market/types/market.go:80-100 | filtering distributes over concatenation, so the kept markets keep their relative order |
| MarketExpiry.FilterIdempotent | src/problem6/market/types/market.go:80-100 | filtering a filtered list again changes nothing |
| MarketExpiry.FiltersDisjoint | src/problem6/market/types/market.go:80-100 | no market is both among those before expiry and among those to settle |
| MarketExpiry.ToSettleMembership | src/problem6/market/types/market.go:91-100 | the markets to settle are exactly the listed markets that are expired and not settled |
| MarketExpiry.FilterMarketsBeforeExpiry | src/problem6/market/types/market.go:80-89 | the loop returns the markets before expiry at the block time, in list order |
| MarketExpiry.FilterMarketsToSettle | src/problem6/market/types/market.go:91-100 | the loop returns the expired, unsettled markets, in list order |
| MarketExpiry.IsInMarkets | src/problem6/market/types/market.go:102-110 | the result is true exactly when some listed market has the same name |
| MarketValidation.ValidateBasic | src/problem6/market/types/market.go:194-292 | a market passes exactly when it meets every general rule and the rules of its type; a general failure is reported before any type rule |
| MarketValidation.GeneralCheck | src/problem6/market/types/market.go:196-231 | the general rules as an ordered chain of failures; `GeneralCheckMeaning` and `GeneralCheckKind` state what passes and what fails |
| MarketValidation.SpotCheck | src/problem6/market/types/market.go:235-259 | the spot rules as an ordered chain; `SpotCheckMeaning` and `SpotCheckKind` state them |
| MarketValidation.FuturesCheck | src/problem6/market/types/market.go:260-287 | the futures rules as an ordered chain; `FuturesCheckMeaning`, `FuturesCheckKind` and `OnlyExpiryIsInvalidRequest` state them |
| MarketValidation.GeneralCheckMeaning | src/problem6/market/types/market.go:196-231 | the general checks pass exactly when: the name and display name are non-empty, within their character sets and at most 128 long; description, base and quote are non-empty; 0 < lot size ≤ 10^30; 0 < tick size ≤ 10^30; tick × lot is an integer; min quantity is positive, at least the lot size and a multiple of it |
| MarketValidation.GeneralCheckKind | src/problem6/market/types/market.go:196-231 | every general failure is an invalid-market error |
| MarketValidation.SpotCheckMeaning | src/problem6/market/types/market.go:235-259 | the spot checks pass exactly when: risk step, margin step, maintenance ratio, liquidation ticket, impact size and both bands are zero; the initial margin base is 1; the oracle id is empty; the expiry is in second 0; the liquidation duration is 0 |
| MarketValidation.SpotCheckKind | src/problem6/market/types/market.go:235-259 | every spot failure is an invalid-market error |
| MarketValidation.FuturesCheckMeaning | src/problem6/market/types/market.go:260-287 | the futures checks pass exactly when: the initial margin base is positive; 0 < maintenance ratio < 1; risk step and margin step are non-negative and either both zero or both non-zero; 1000 × ticket ≥ min quantity; the impact size is positive; both bands are in 1..20000; the oracle id is non-empty; the liquidation duration is at least 30 s; the expiry second is before 253402300800 |
| MarketValidation.FuturesCheckKind | src/problem6/market/types/market.go:260-287 | a futures failure is an invalid-request error only for the expiry bound, and an invalid-market error otherwise |
| MarketValidation.SpotAcceptedIff | src/problem6/market/types/market.go:233-259 | a spot market that meets the general rules passes exactly when it meets the spot rules |
| MarketValidation.FuturesAcceptedIff | src/problem6/market/types/market.go:260-287 | a futures market that meets the general rules passes exactly when it meets the futures rules |
| MarketValidation.OtherMarketTypeRejected | src/problem6/market/types/market.go:288-290 | a market type other than spot or futures always fails, and after the general rules it fails as an invalid market type |
| MarketValidation.OnlyExpiryIsInvalidRequest | src/problem6/market/types/market.go:284-286 | a failure is an invalid-request error exactly when it is the futures expiry bound |
| MarketValidation.GeneralFailureIgnoresType | src/problem6/market/types/market.go:194-231 | when a general rule fails, the market type does not change the error |
| MarketValidation.CharsetReportedBeforeLength | src/problem6/market/types/market.go:197-202 | a non-empty name outside the character set is reported as such, whatever its length |
| MarketValidation.TickIntegralityReportedBeforeTickBound | src/problem6/market/types/market.go:219-224 | a tick size whose product with the lot size is not an integer is reported for that before the tick-size bound |
| MarketValidation.EmptyQuoteReportsBase | src/problem6/market/types/market.go:211-214 | an empty quote is reported with the base's message text |
| MarketValidation.SampleSpotMarketScenarios | src/problem6/market/types/market.go:194-292 | a well-formed spot market passes; the same market with a mark price band of 5 fails on that band; with lot size 1 it fails tick × lot integrality |
| MarketMargin.MaxLeverageDec | src/problem6/market/types/market.go:125-131 | for a positive initial margin base, the leverage is 1 / base truncated at 18 decimals (between the exact quotient minus one unit and the quotient) |
| MarketMargin.MaxLeverageAntitone | src/problem6/market/types/market.go:125-131 | a larger initial margin base never gives a larger leverage |
| MarketMargin.MaxLeverageOfFivePercent | src/problem6/market/types/market.go:125-131 | a 5% initial margin base gives leverage 20 |
| MarketMargin.RiskStep | src/problem6/market/types/market.go:143-148 | for a positive step size, the step is the k with k·RSS ≤ abs(size) < (k+1)·RSS |
| MarketMargin.RequiredInitialMargin | src/problem6/market/types/market.go:140-149 | the initial margin for a position: base plus step times the risk step of its absolute size; `InitialMarginAtStep`, `InitialMarginSymmetric`, `InitialMarginBelowFirstStep` and `InitialMarginMonotone` state it |
| MarketMargin.RiskStepIs | src/problem6/market/types/market.go:143-148 | the step is the unique k with k·RSS ≤ abs(size) < (k+1)·RSS |
| MarketMargin.InitialMarginAtStep | src/problem6/market/types/market.go:140-149 | the initial margin at step k is base + step × k |
| MarketMargin.InitialMarginSymmetric | src/problem6/market/types/market.go:143-149 | long and short positions of one size need the same initial margin |
| MarketMargin.InitialMarginBelowFirstStep | src/problem6/market/types/market.go:143-149 | below one step size, the initial margin is the base |
| MarketMargin.InitialMarginMonotone | src/problem6/market/types/market.go:143-149 | with a non-negative margin step, a larger position never needs less initial margin |
| MarketMargin.InitialMarginScenario | src/problem6/market/types/market.go:140-149 | with base 0.2, step 0.0001 and step size 100000, size 250000 needs 0.2002 |
| MarketMargin.RequiredMaintenanceMargin | src/problem6/market/types/market.go:133-138 | the initial margin times the maintenance ratio, rounded to 18 decimals; `MaintenanceMarginBounds` bounds it |
| MarketMargin.MaintenanceMarginBounds | src/problem6/market/types/market.go:133-138 | with a ratio in [0, 1) the maintenance margin is between 0 and the initial margin, and within half a unit of IM × MMR |
| MarketMargin.MaxFee | src/problem6/market/types/market.go:168 | the larger of taker and maker fee: at least both, and one of them |
| MarketMargin.FeeAmount | src/problem6/market/types/market.go:169-171 | quantity × fee × price rounded up to a whole quote unit; `FeeAmountIsCeiling` states it is the ceiling |
| MarketMargin.FeeAmountIsCeiling | src/problem6/market/types/market.go:169-171 | when the product fits 18 decimals, the fee amount is the least integer not below quantity × fee × price |
| MarketMargin.FeeMarginAsWritten | src/problem6/market/types/market.go:162-172 | the fee margin as the code computes it, in the quote denomination |
| MarketMargin.FeeMarginAsWrittenNegative | src/problem6/market/types/market.go:151-172 | with both fees a rebate of -0.0002, quantity 10 at price 50000 gives a fee margin of -100 |
| MarketMargin.FeeMargin | src/problem6/market/types/market.go:151-172 | the fee margin with a rebate counted as zero, in the quote denomination |
| MarketMargin.FeeMarginNonNegative | src/problem6/market/types/market.go:151-172 | for non-negative quantity and price, the fee margin is never negative |
| MarketMargin.FeeMarginAgreesWithoutRebates | src/problem6/market/types/market.go:162-172 | when either fee is non-negative, the fee margin equals the code's computation |
| MarketMargin.FeeMarginScenario | src/problem6/market/types/market.go:162-172 | quantity 10 at price 50000 with taker fee 0.0005 needs 250 of the quote |
| MarketMargin.MaxSizeGivenStepSize | src/problem6/market/types/market.go:174-178 | the largest size in risk step k; `StepBoundsBracketRiskStep` shows the sizes up to it are in step k |
| MarketMargin.MinSizeGivenStepSize | src/problem6/market/types/market.go:180-184 | the smallest size in risk step k; `StepBoundsAdjacent` and `StepBoundsOrdered` relate it to the maximum |
| MarketMargin.StepBoundsAdjacent | src/problem6/market/types/market.go:174-184 | the maximum size of step k and the minimum size of step k + 1 are two lots apart |
| MarketMargin.StepBoundsOrdered | src/problem6/market/types/market.go:174-184 | a step's minimum size is at most its maximum exactly when the step size is at least two lots |
| MarketMargin.StepBoundsBracketRiskStep | src/problem6/market/types/market.go:174-184 | every size between a step's minimum and maximum falls in that risk step |
| ModuleParams.NewParams | src/problem6/market/types/params.go:70-104 | the parameters built from 23 arguments; `NewParamsFromFields` shows each argument lands in its own field |
| ModuleParams.DefaultParams | src/problem6/market/types/params.go:106-132 | the defaults of params.go:12-37; `DefaultParamsPassPairs` shows they pass every validator |
| ModuleParams.NewParamsFromFields | src/problem6/market/types/params.go:70-104 | building parameters from the fields of p gives p back, so each argument lands in its own field |
| ModuleParams.Validate | src/problem6/market/types/params.go:135-138 | `Params.Validate` accepts every parameter set |
| ModuleParams.ValidateLotSize | src/problem6/market/types/params.go:174-186 | passes exactly when 0 < lot size ≤ 10^30 |
| ModuleParams.ValidateTickSize | src/problem6/market/types/params.go:188-200 | passes exactly when 0 < tick size ≤ 10^30 |
| ModuleParams.ValidateMinQuantity | src/problem6/market/types/params.go:202-212 | passes exactly when the minimum quantity is positive |
| ModuleParams.ValidateFee | src/problem6/market/types/params.go:214-228 | the fee validator's ordered checks; `FeeAcceptedIff` and `FeeRangeReportedFirst` state what it accepts and reports |
| ModuleParams.FeeQuotient | src/problem6/market/types/params.go:224 | dividing a fee by 0.00001 is exactly the fee times 10^5 |
| ModuleParams.ScaledFeeInteger | src/problem6/market/types/params.go:224 | fee × 10^5 is an integer exactly when the fee is a multiple of 0.00001 |
| ModuleParams.FeeAcceptedIff | src/problem6/market/types/params.go:214-228 | a fee passes exactly when -1 < fee < 1 and it has at most 5 decimals |
| ModuleParams.FeeRangeReportedFirst | src/problem6/market/types/params.go:219-223 | a fee outside (-1, 1) is reported for its range, not its precision |
| ModuleParams.ValidateRiskStepSize | src/problem6/market/types/params.go:230-239 | passes exactly when the risk step size is non-negative |
| ModuleParams.ValidateInitialMarginBase | src/problem6/market/types/params.go:241-250 | passes exactly when the initial margin base is non-negative |
| ModuleParams.ValidateInitialMarginStep | src/problem6/market/types/params.go:252-261 | passes exactly when the initial margin step is non-negative |
| ModuleParams.ValidateMaintenanceMarginRatio | src/problem6/market/types/params.go:263-272 | passes exactly when 0 < ratio < 1 |
| ModuleParams.ValidateMaxLiquidationOrderDuration | src/problem6/market/types/params.go:282-291 | passes exactly when the duration is at least 3 s |
| ModuleParams.ValidateMarkPriceBand | src/problem6/market/types/params.go:297-306 | passes exactly when 1 ≤ band ≤ 20000 |
| ModuleParams.ValidateLastPriceProtectedBand | src/problem6/market/types/params.go:308-317 | passes exactly when 1 ≤ band ≤ 20000 |
| ModuleParams.ValidateMaxActiveMarkets | src/problem6/market/types/params.go:319-328 | passes exactly when the limit is non-zero |
| ModuleParams.ValidateTradingBandwidth | src/problem6/market/types/params.go:330-339 | passes exactly when the bandwidth is non-zero |
| ModuleParams.ValidateFundingRateBand | src/problem6/market/types/params.go:341-350 | passes exactly when the band is non-negative |
| ModuleParams.ValidateLPMakerFee | src/problem6/market/types/params.go:352-361 | passes exactly when the fee is not positive |
| ModuleParams.ValidateLPTakerFee | src/problem6/market/types/params.go:362-372 | passes exactly when the fee is zero |
| ModuleParams.Run | src/problem6/market/types/params.go:174-372 | runs a pair's validator on its value, failing on a value of the wrong Go type; `PairsWellTyped` shows the registered pairs never do |
| ModuleParams.ParamSetPairs | src/problem6/market/types/params.go:146-172 | there are 23 pairs, one per parameter |
| ModuleParams.PairsWellTyped | src/problem6/market/types/params.go:146-172 | every pair's value has the Go type its validator asserts |
| ModuleParams.InRangePassesPairs | src/problem6/market/types/params.go:146-372 | parameters with every field in its validator's range pass all pairs |
| ModuleParams.PassingPairsInRange | src/problem6/market/types/params.go:146-372 | parameters passing all pairs have every field in range |
| ModuleParams.PassingPairsSizes | src/problem6/market/types/params.go:146-212 | passing all pairs puts the lot size, tick size and minimum quantity in range |
| ModuleParams.PassingPairsFees | src/problem6/market/types/params.go:146-228 | passing all pairs puts the four trading fees (spot and futures, maker and taker) strictly between -1 and 1, as multiples of 0.00001 |
| ModuleParams.PassingPairsMargins | src/problem6/market/types/params.go:146-317 | passing all pairs makes the risk step size, initial margin base and initial margin step non-negative; puts the maintenance ratio strictly between 0 and 1; makes the liquidation-order duration at least 3 s; and puts both price bands in 1..20000 |
| ModuleParams.PassingPairsLimits | src/problem6/market/types/params.go:146-372 | passing all pairs makes the active-market limit and the trading bandwidth non-zero and the funding rate band non-negative; it makes both LP maker fees at most 0 and both LP taker fees exactly 0 |
| ModuleParams.AllPairsPassIff | src/problem6/market/types/params.go:146-372 | all pairs pass exactly when every field is in its validator's range |
| ModuleParams.DefaultParamsPassPairs | src/problem6/market/types/params.go:106-132 | the default parameters pass every pair's validator |
| CrudeTypes.DefaultGenesis | src/problem5/crude/x/crude/types/genesis.go:11-17 | the default genesis state has no resources and a count of 0 |
| CrudeTypes.Validate | src/problem5/crude/x/crude/types/genesis.go:21-37 | the loop with its map of seen ids returns the list check's outcome, then the parameters' |
| CrudeTypes.ScanFrom | src/problem5/crude/x/crude/types/genesis.go:25-33 | the list check from a position on, duplicate before bound; `ScanFromPasses`, `ScanSkipsCleanPrefix` and `FirstOffenderReported` state it |
| CrudeTypes.GenesisOutcome | src/problem5/crude/x/crude/types/genesis.go:21-37 | the list check's failure, otherwise the parameters' outcome; `CrudeTypes.Validate` computes it and `ListPassesIff` characterises it |
| CrudeTypes.ScanFromPasses | src/problem5/crude/x/crude/types/genesis.go:25-33 | from a clean prefix, the check passes exactly when the whole list is clean |
| CrudeTypes.ListPassesIff | src/problem5/crude/x/crude/types/genesis.go:21-33 | the list passes exactly when its ids are pairwise distinct and all below the count |
| CrudeTypes.ScanSkipsCleanPrefix | src/problem5/crude/x/crude/types/genesis.go:25-33 | over a clean prefix, the check reaches the first offending position unchanged |
| CrudeTypes.FirstOffenderReported | src/problem5/crude/x/crude/types/genesis.go:25-31 | the first offending resource decides the error: a duplicate if an earlier id equals its id, otherwise the bound |
| CrudeTypes.DefaultGenesisValid | src/problem5/crude/x/crude/types/genesis.go:11-37 | the default state is valid whenever its parameters are |
| CrudeTypes.TwoResourcesValid | src/problem5/crude/x/crude/types/genesis_test.go:22-38 | ids 0 and 1 under a count of 2 pass |
| CrudeTypes.DuplicateWithZeroCountFailsOnBound | src/problem5/crude/x/crude/types/genesis_test.go:39-52 | two id-0 resources with the count left at 0 fail, for the bound |
| CrudeTypes.DuplicateRejected | src/problem5/crude/x/crude/types/genesis.go:26-28 | two id-0 resources under a positive count fail as duplicates |
| CrudeTypes.IdAtOrAboveCountRejected | src/problem5/crude/x/crude/types/genesis_test.go:53-64 | id 1 under a count of 0 fails the bound |
| CrudeKeeper.DecodeEncode | src/problem5/crude/x/crude/keeper/resource.go:31-38 | decoding the big-endian encoding of a number that fits the width gives the number |
| CrudeKeeper.EncodeDecode | src/problem5/crude/x/crude/keeper/resource.go:15-28 | encoding what bytes decode to gives the bytes |
| CrudeKeeper.DecodeBounded | src/problem5/crude/x/crude/keeper/resource.go:15-28 | n bytes decode to a number below 256^n |
| CrudeKeeper.PutUint64 | src/problem5/crude/x/crude/keeper/resource.go:31-38 | the count's encoding is 8 bytes that decode to the count |
| CrudeKeeper.Uint64Of | src/problem5/crude/x/crude/keeper/resource.go:27 | decoding 8 bytes gives the uint64 whose encoding they are |
| CrudeKeeper.GetResourceIDBytes | src/problem5/crude/x/crude/keeper/resource.go:107-112 | the key is the prefix, a slash, then 8 id bytes: length of prefix + 9 |
| CrudeKeeper.IDBytesInjective | src/problem5/crude/x/crude/keeper/resource.go:107-112 | different ids have different keys |
| CrudeKeeper.DecodeRespectsLex | src/problem5/crude/x/crude/keeper/resource.go:90-112 | big-endian bytes that come first in byte order spell the smaller number |
| CrudeKeeper.KeysAscendWithIds | src/problem5/crude/x/crude/keeper/resource.go:90-112 | a smaller id has a key that comes first in the store's byte order |
| CrudeKeeper.Keeper.GetResourceCount | src/problem5/crude/x/crude/keeper/resource.go:15-28 | 0 when no count is stored, otherwise the number whose encoding is stored |
| CrudeKeeper.Keeper.SetResourceCount | src/problem5/crude/x/crude/keeper/resource.go:31-38 | stores the count's 8-byte encoding, after which the count reads back unchanged; resources are untouched |
| CrudeKeeper.Keeper.AppendResource | src/problem5/crude/x/crude/keeper/resource.go:41-60 | returns the old count, stores the resource under it with that id, and adds one to the count modulo 2^64 |
| CrudeKeeper.Keeper.SetResource | src/problem5/crude/x/crude/keeper/resource.go:63-68 | only the entry under the resource's id changes, and the count bytes are untouched |
| CrudeKeeper.Keeper.GetResource | src/problem5/crude/x/crude/keeper/resource.go:71-80 | found exactly when the id is stored, with its resource; otherwise the zero resource |
| CrudeKeeper.Keeper.RemoveResource | src/problem5/crude/x/crude/keeper/resource.go:83-87 | only the entry under the id disappears, and the count bytes are untouched |
| CrudeKeeper.Keeper.GetAllResource | src/problem5/crude/x/crude/keeper/resource.go:90-104 | every stored resource exactly once, in ascending id order, which is the store's key order |
| CrudeKeeper.AppendedZerosContents | src/problem5/crude/x/crude/keeper/resource.go:41-60 | n appends from count c add exactly ids c to c + n - 1, each holding its own id, and keep every other entry |
| CrudeKeeper.CreateNResource | src/problem5/crude/x/crude/keeper/resource_test.go:15-21 | n appends from count c give ids c, c + 1, …, store those resources and raise the count by n |
| CrudeKeeper.CreateNResourceFresh | src/problem5/crude/x/crude/keeper/resource_test.go:23-60 | on a fresh store, n appends give ids 0 to n - 1, each found with its resource, exactly those ids stored, and a count of n |
| CrudeMsgServer.CreateResource | src/problem5/crude/x/crude/keeper/msg_server_resource.go:14-31 | stores the message's creator, name and value under the old count, returns that id, and adds one to the count |
| CrudeMsgServer.UpdateResource | src/problem5/crude/x/crude/keeper/msg_server_resource.go:33-57 | reports a missing id, then a sender who is not the owner; otherwise replaces the entry with the message's fields; the count never changes |
| CrudeMsgServer.DeleteResource | src/problem5/crude/x/crude/keeper/msg_server_resource.go:59-76 | same guards in the same order; otherwise removes the entry; the count never changes |
| CrudeMsgServer.OwnerCheck | src/problem5/crude/x/crude/keeper/msg_server_resource.go:43-52 | the handlers' guard: not found, then unauthorized; `OwnerCheckOrder` states its order and pass condition |
| CrudeMsgServer.Updated | src/problem5/crude/x/crude/keeper/msg_server_resource.go:33-57 | the store after an update message; `UpdateKeepsOwnership` and `UpdateIdempotent` state it |
| CrudeMsgServer.Deleted | src/problem5/crude/x/crude/keeper/msg_server_resource.go:59-76 | the store after a delete message; `DeleteRemovesOnlyItsEntry` and `DeletedIdNotFound` state it |
| CrudeMsgServer.OwnerCheckOrder | src/problem5/crude/x/crude/keeper/msg_server_resource.go:44-52 | a missing id is reported before ownership; the guard passes exactly when the sender is the stored owner |
| CrudeMsgServer.UpdateKeepsOwnership | src/problem5/crude/x/crude/keeper/msg_server_resource.go:36-56 | an update keeps the set of ids, every other entry, and every entry's owner and id |
| CrudeMsgServer.UpdateIdempotent | src/problem5/crude/x/crude/keeper/msg_server_resource.go:33-57 | repeating an update changes nothing more |
| CrudeMsgServer.DeleteRemovesOnlyItsEntry | src/problem5/crude/x/crude/keeper/msg_server_resource.go:59-76 | a successful delete removes its id; every other entry is kept |
| CrudeMsgServer.DeletedIdNotFound | src/problem5/crude/x/crude/keeper/msg_server_resource.go:59-76 | after a successful delete, any update or delete of that id reports it missing |
| CrudeMsgServer.HandlerScenarios | src/problem5/crude/x/crude/keeper/msg_server_resource_test.go:26-105 | with one resource of "A" under id 0: "A" may update and delete it, "B" is unauthorized, and id 10 is not found |
| Gauss.GaussFormula | src/problem4/problem4.go:25-28 | twice the sum up to n ≥ 0 is n(n + 1) |
| Gauss.ConsecutiveProductEven | src/problem4/problem4.go:26-28 | n(n + 1) is never negative and always even, for every integer n |
| Gauss.HalfProduct | src/problem4/problem4.go:26-28 | halving n(n + 1) is exact, and for n ≥ 0 it is the sum up to n |
| Problem4.SumToNA | src/problem4/problem4.go:9-15 | the loop returns 1 + … + n, and 0 for n < 1 |
| Problem4.SumToNB | src/problem4/problem4.go:18-23 | the recursion n + (n - 1) + …, returning n once n ≤ 1; `SumToNBIsSum` states its value |
| Problem4.SumToNC | src/problem4/problem4.go:26-28 | n(n + 1) / 2 with Go's truncating division; `SumToNCIsSum` states its value |
| Problem4.SumToNBIsSum | src/problem4/problem4.go:18-23 | the recursion is the sum for n ≥ 0, and returns n itself for n < 0 |
| Problem4.SumToNCIsSum | src/problem4/problem4.go:26-28 | the formula with truncating division is the sum for n ≥ 0, and the sum up to -n - 1 for n < 0 |
| Problem4.AgreeOnNaturals | src/problem4/problem4.go:9-33 | for n ≥ 0 the loop, the recursion and the formula agree, and at 0 all are 0 |
| Problem4.DisagreeBelowZero | src/problem4/problem4.go:5-23 | at -1 the loop and the formula give 0 but the recursion gives -1 |
| Problem1.SumToNA | src/problem1/problem1.js:1-8 | the loop returns 1 + … + n, and 0 for n < 1 |
| Problem1.SumToNB | src/problem1/problem1.js:10-13 | n(n + 1) / 2 as a JavaScript number; `SumToNBIsSum` states its value |
| Problem1.SumToNC | src/problem1/problem1.js:15-21 | the recursion n + (n - 1) + … down to 0; `SumToNCIsSum` states its value |
| Problem1.SumToNBIsSum | src/problem1/problem1.js:10-13 | the formula's quotient is the whole-number sum for n ≥ 0, and the sum up to -n - 1 for n < 0 |
| Problem1.SumToNCIsSum | src/problem1/problem1.js:15-21 | for n ≥ 0 the recursion is the sum 1 + … + n |
| Problem1.AgreeOnNaturals | src/problem1/problem1.js:1-21 | for n ≥ 0 the loop, the formula and the recursion agree |
| ThreeWays.SumToNA | src/problem1/three_ways_to_sum_to_n.js:5-13 | the arithmetic-series formula with first term 1 and difference 1, 0 for n ≤ 0; `SumToNAIsSum` states its value |
| ThreeWays.SumToNAIsSum | src/problem1/three_ways_to_sum_to_n.js:5-13 | the guarded series formula is the sum 1 + … + n on every integer, and 0 for n ≤ 0 |
| ThreeWays.SumToNB | src/problem1/three_ways_to_sum_to_n.js:15-22 | the loop returns 1 + … + n, and 0 for n < 1 |
| ThreeWays.SumToNC | src/problem1/three_ways_to_sum_to_n.js:24-33 | n × (first + last) / 2, 0 for n < 0; `SumToNCIsSum` states its value |
| ThreeWays.SumToNCIsSum | src/problem1/three_ways_to_sum_to_n.js:24-33 | the guarded first-plus-last formula is the sum on every integer, 0 at n = 0 and below |
| ThreeWays.AllAgree | src/problem1/three_ways_to_sum_to_n.js:5-33 | the three functions agree on every integer, negative ones included |

## Left out

- Library number limits. `sdk.Dec` and `sdkmath.Int` are bounded to 256 bits and panic beyond; the model's integers are unbounded. Go's `int` overflow and JavaScript doubles beyond 2^53 are likewise not modelled.
- `Duration.Seconds()` returns a float. The model compares whole nanoseconds: at least 30 s is `ns >= 30·10^9`, and at least 3 s is `ns >= 3·10^9`. These are the same comparisons.
- MarketMargin.MaxLeverageDec: requires a non-zero initial margin base, because the library panics on division by zero.
- MarketMargin.RequiredInitialMargin: requires a non-zero step size, because `Int.Quo` panics on division by zero. Spot markets, which have step size 0, therefore cannot call it.
- MarketMargin.RequiredMaintenanceMargin: requires a non-zero step size too, because it multiplies the initial margin.
- MarketMargin.FeeMargin: requires a futures market; the source panics for any other market type.
- MarketMargin.FeeMargin: `sdk.NewCoin` validates the denomination and panics on a negative amount. Neither check is modelled. The coin is the pair (denomination, amount).
- MarketMargin.FeeAmountIsCeiling: the ceiling is exact only when quantity × fee × price fits 18 decimals. Otherwise the library rounds the products half to even first. `Mul` models that rounding, but the lemma does not state the ceiling for it.
- Reflection in `Mutate`: the model lists the fields of `MarketParams` explicitly, rather than looking them up by name at run time.
- `GetStoreKey` (the market name as bytes) and `String`, which marshals parameters to YAML.
- `ParamKeyTable` and the paramspace it registers with. `ParamSetPairs` gives the key, the value and the validator; the stored pointer is the value itself.
- The keeper's codec. Marshalling a resource and unmarshalling it again is the identity in this model, and `MustMarshal`/`MustUnmarshal` never panic.
- The resource key prefix. The `ResourceKey` and `ResourceCountKey` constants are not part of this model, so the prefix is a parameter of `GetResourceIDBytes`.
- The key-value store. The store is the keeper's map from ids to resources, which is why the keeper does not depend on the prefix. `KeysAscendWithIds` shows that the store's key order is id order.
- The crude module's own `Params` and their `Validate`, which are not part of this model. The outcome of that check is an argument of the genesis `Validate`.
- The messages' `ValidateBasic`, which only decodes a bech32 address. Also the queries in `query_resource.go`, which delegate pagination to the SDK.
- CrudeKeeper.CreateNResource: requires the count plus n to stay below 2^64, so that the ids are consecutive. `AppendResource` itself models the wrap-around.
- Problem1.SumToNC: requires n ≥ 0. For a negative argument the JavaScript recursion never reaches its base case and overflows the stack.
- Non-integer arguments to the JavaScript functions.

## Findings

| source | as written | input that shows it | evidently intended | confidence | as-written member | corrected member |
|---|---|---|---|---|---|---|
| src/problem6/market/types/market.go:151-172 | the fee margin is quantity × max(taker, maker) × price, rounded up, with no clamp; the doc comment says a negative fee (a rebate) is treated as zero | futures market, taker = maker = -0.0002, quantity 10, price 50000: the fee margin is -100, and `sdk.NewCoin` would then panic on the negative amount | take max(taker, maker, 0), so the fee margin is never negative | high; not executed | MarketMargin.FeeMarginAsWritten / MarketMargin.FeeMarginAsWrittenNegative | MarketMargin.FeeMargin / MarketMargin.FeeMarginNonNegative |
