# FluxFi yield engine — a Dafny model

FluxFi routes idle crypto into yield vaults. This project models the decision logic
behind it and proves properties of that logic:

- the yield optimizer: the opportunity analyser with its confidence score and gate,
  the risk classifier, and the 70/30 portfolio split;
- the rate monitor: its start/stop timer state, the hourly update cycle, the
  rebalance recommendation rule, and the history window with its mean;
- the swap service: the quote from the rate table, and the order's status
  progression;
- the simple-interest earnings rule;
- the keyword chatbot with its message history;
- the risk badge of the vault list.

Vault records are a `Vault` datatype. Rates, TVL and amounts are `real`; risk scores
and times are `int`. The monitor's database tables (vaults, deposits, yield history)
are fields of the `ApyMonitor.Monitor` class. The rebalance log line becomes a
`Recommendation` appended to a field. Random numbers, the clock and generated ids are
parameters.

Modules, one per file:
- `Wrappers`: `Option`.
- `Sorting`: a stable descending insertion sort by a rank. It stands for the
  JavaScript array sort with a `b - a` comparator, and is proved to be a sorted,
  stable permutation.
- `VaultService`, `YieldOptimizer`, `ApyMonitor`, `Sideshift`, `AiChatbot` and
  `VaultList`: one per source file.

## Model

| member | source | states |
|---|---|---|
| VaultService.CalculateEarnings | src/services/vaultService.ts:88-90 | earnings times 36500 equal deposit × APY × days: simple daily interest at APY/365 percent |
| VaultService.NoTimeOrNoRateEarnsNothing | src/services/vaultService.ts:88-90 | zero days or a zero rate earns nothing |
| VaultService.EarningsAdditiveInDays | src/services/vaultService.ts:89 | earnings over d1 + d2 days are the sum of the earnings over d1 and over d2 |
| VaultService.EarningsMonotoneInDays | src/services/vaultService.ts:89 | for a non-negative deposit and rate, more days never earn less |
| VaultService.EarningsOverOneYear | src/services/vaultService.ts:88-89 | 365 days earn deposit × APY / 100 |
| YieldOptimizer.CalculateAnnualGain | src/services/aiYieldOptimizer.ts:152-154 | the annual gain is the APY difference, as a percentage, of the balance |
| YieldOptimizer.Confidence | src/services/aiYieldOptimizer.ts:156-167 | confidence always lies between 0.5 and 1 |
| YieldOptimizer.CalculateConfidence | src/services/aiYieldOptimizer.ts:156-167 | the step-by-step accumulation of the four bonuses, capped at 1, equals the confidence score; the result is within [0.5, 1] |
| YieldOptimizer.ConfidenceGate | src/services/aiYieldOptimizer.ts:156-167 | a candidate passes the 0.7 gate iff its TVL exceeds 50M, or at least two of the three smaller bonuses (risk ≤ 4, aave/yearn, APY ratio in (1.2, 2)) apply |
| YieldOptimizer.GenerateReason | src/services/aiYieldOptimizer.ts:169-176 | the reason names the suggested vault and its protocol, carries the APY difference and the TVL in millions, and has a percentage increase exactly when the current rate is non-zero |
| YieldOptimizer.AnalyzeYieldOpportunities | src/services/aiYieldOptimizer.ts:23-57 | the loop's output is the stable gain-descending sort of the qualifying offers, and is non-increasing by estimated gain |
| YieldOptimizer.NoBaselineNoOpportunities | src/services/aiYieldOptimizer.ts:31 | without a current vault there are no opportunities |
| YieldOptimizer.OpportunitiesAreQualifyingOffers | src/services/aiYieldOptimizer.ts:30-51 | an opportunity is in the result iff it is the offer for some listed vault with another id, an APY difference above 0.5 and confidence ≥ 0.7 |
| YieldOptimizer.OpportunityFields | src/services/aiYieldOptimizer.ts:20-51 | every opportunity names the current vault, suggests a listed vault other than it, has difference = suggested − current > 0.5, gain = balance × difference / 100, and the candidate's confidence ≥ 0.7 |
| YieldOptimizer.AtMostOnePerCandidate | src/services/aiYieldOptimizer.ts:30-54 | the suggested vaults, counted with multiplicity, are a sub-multiset of the inputs, so each candidate is suggested at most once |
| YieldOptimizer.OpportunitiesByGain | src/services/aiYieldOptimizer.ts:56 | the result is sorted by non-increasing gain, and opportunities with equal gain keep their input order (no secondary key) |
| YieldOptimizer.TopOpportunityHasLargestDifference | src/services/aiYieldOptimizer.ts:36-56 | for a positive balance, the first opportunity has the largest APY difference of all |
| YieldOptimizer.GainOrdersDifferences | src/services/aiYieldOptimizer.ts:152-154 | for a positive balance, a larger gain means a larger APY difference |
| YieldOptimizer.EstablishedCandidateScenario | src/services/aiYieldOptimizer.ts:23-57 | a large, low-risk aave vault at 6.5% against a 4.8% baseline scores confidence 1, gains 170 on 10000, and is offered |
| YieldOptimizer.GenerateRiskRecommendation | src/services/aiYieldOptimizer.ts:178-189 | the recommendation is the vault's name followed by the text of its level |
| YieldOptimizer.AdviceMarked | src/services/aiYieldOptimizer.ts:182-188 | each level's text is non-empty and carries a distinguishing character |
| YieldOptimizer.AdviceDistinct | src/services/aiYieldOptimizer.ts:182-188 | the three level texts are pairwise different |
| YieldOptimizer.RecommendationDeterminesLevel | src/services/aiYieldOptimizer.ts:178-189 | for a given vault, the recommendation text determines the level |
| YieldOptimizer.AssessRisk | src/services/aiYieldOptimizer.ts:59-93 | the step-by-step level update and factor pushes yield the assessment: the vault id, the escalated level, the fired factors or the single minimal factor, and the recommendation for the level |
| YieldOptimizer.HighIffScoreAtLeastSeven | src/services/aiYieldOptimizer.ts:63-79 | the level is high iff the risk score is at least 7 |
| YieldOptimizer.EscalationOnlyLiftsLow | src/services/aiYieldOptimizer.ts:61-79 | the TVL and APY rules never lower the base level and only ever lift low to medium; medium holds iff 5 ≤ score < 7, or score < 5 with TVL below 10M or APY above 15 |
| YieldOptimizer.LevelIgnoresProtocol | src/services/aiYieldOptimizer.ts:81-83 | the protocol, and so the quickswap rule, never changes the level |
| YieldOptimizer.FactorStrings | src/services/aiYieldOptimizer.ts:60-90 | the reported list has one text per factor, each the source's text for that rule, in order, and holds the minimal-risk text iff the factor list holds the minimal-risk factor |
| YieldOptimizer.MinimalTextUnique | src/services/aiYieldOptimizer.ts:65-90 | no rule's factor text equals the minimal-risk text |
| YieldOptimizer.MinimalTextIffNoRule | src/services/aiYieldOptimizer.ts:60-90 | the reported list is the lone minimal-risk text iff no score, TVL, APY or quickswap rule fired |
| YieldOptimizer.FactorsNeverEmpty | src/services/aiYieldOptimizer.ts:60-90 | the factor list is never empty; it is the lone minimal factor iff no score, TVL, APY or quickswap rule fired |
| YieldOptimizer.FactorsInRuleOrder | src/services/aiYieldOptimizer.ts:63-83 | the factors appear in the order of the rules that produced them, each at most once |
| YieldOptimizer.FactorPresentIffRuleFires | src/services/aiYieldOptimizer.ts:63-83 | each rule factor is listed iff its rule fires for the vault |
| YieldOptimizer.Eligible | src/services/aiYieldOptimizer.ts:100-104 | a vault is eligible iff it is listed and its score is within the tolerance (≤ 4 low, ≤ 6 medium, any high); an eligible vault is kept as often as it is listed, any other not at all |
| YieldOptimizer.OptimizePortfolio | src/services/aiYieldOptimizer.ts:95-131 | the pushes build the portfolio split, which has at most two entries |
| YieldOptimizer.PortfolioEmptyIffNoneEligible | src/services/aiYieldOptimizer.ts:110 | the split is empty iff no vault is within the tolerance |
| YieldOptimizer.PortfolioOnlyEligible | src/services/aiYieldOptimizer.ts:100-128 | every allocated vault is listed and within the tolerance |
| YieldOptimizer.PortfolioSumsToBalance | src/services/aiYieldOptimizer.ts:110-128 | a non-empty split hands out exactly the balance |
| YieldOptimizer.PortfolioSingleVault | src/services/aiYieldOptimizer.ts:112-114 | a single eligible vault receives the whole balance |
| YieldOptimizer.PortfolioTopTwo | src/services/aiYieldOptimizer.ts:106-128 | with two or more eligible vaults, two distinct entries of the eligible list are allocated: the highest rate gets 70%, the highest of the rest gets 30%, and no other eligible vault outranks them |
| YieldOptimizer.LowToleranceScenario | src/services/aiYieldOptimizer.ts:100-114 | at low tolerance, scores 3, 5 and 8 leave only the score-3 vault, which receives the whole balance |
| ApyMonitor.ActiveVaults | src/services/apyMonitor.ts:30-33 | the snapshot holds exactly the active vaults, each as often as it is in the table |
| ApyMonitor.ActiveDepositsOf | src/services/apyMonitor.ts:73-77 | the deposits checked are exactly the active deposits of the vault, each as often as it is in the table |
| ApyMonitor.WithApy | src/services/apyMonitor.ts:41-47 | the write sets the new rate and time on the rows with the vault's id and leaves every other row as it was |
| ApyMonitor.RoundCents | src/services/apyMonitor.ts:68 | rounding to two decimals moves a value by at most half a cent and keeps a value ≥ 0.1 at or above 0.1 |
| ApyMonitor.FetchLatestApy | src/services/apyMonitor.ts:64-69 | a fetched rate is at least 0.1 and, up to rounding, within 0.25 of the stored rate |
| ApyMonitor.FetchAll | src/services/apyMonitor.ts:37-69 | one rate per snapshot vault, the k-th fetched with the k-th draw; each is at least 0.1 and, up to half a cent of rounding, within 0.25 of that vault's stored rate (floored at 0.1) |
| ApyMonitor.Monitor.constructor | src/services/apyMonitor.ts:5-7 | a new monitor holds the given tables, no recommendations, and no timer |
| ApyMonitor.Monitor.StartMonitoring | src/services/apyMonitor.ts:6-19 | with a timer set nothing changes; otherwise one update cycle runs at once over the pre-update snapshot of the active vaults and an hourly timer is set |
| ApyMonitor.Monitor.StopMonitoring | src/services/apyMonitor.ts:21-26 | the timer is cleared, and the tables do not change |
| ApyMonitor.Monitor.Tick | src/services/apyMonitor.ts:16-18 | a timer tick runs one update cycle when the timer is set and changes nothing otherwise |
| ApyMonitor.Monitor.UpdateApys | src/services/apyMonitor.ts:28-62 | the tables after the call are one update cycle over the active-vault snapshot taken before it |
| ApyMonitor.Monitor.CheckRebalanceOpportunities | src/services/apyMonitor.ts:71-104 | the recommendations for the vault's active deposits are appended, and nothing else changes |
| ApyMonitor.Cycle | src/services/apyMonitor.ts:28-62 | a cycle keeps the number of vault rows and the deposits, and only appends to the history and the recommendations |
| ApyMonitor.CycleVaults | src/services/apyMonitor.ts:37-47 | the vault table after the cycle's writes has as many rows as before |
| ApyMonitor.DriftRecords | src/services/apyMonitor.ts:49-54 | a cycle appends at most one record per snapshot vault, each stamped with the cycle time |
| ApyMonitor.CycleRecommendations | src/services/apyMonitor.ts:37-58 | every recommendation of a cycle moves out of one of the snapshot vaults |
| ApyMonitor.RebalanceRecommendations | src/services/apyMonitor.ts:88-99 | at most one recommendation per deposit, each moving out of the checked vault |
| ApyMonitor.RebalanceCheck | src/services/apyMonitor.ts:71-99 | every recommendation moves out of the checked vault, and there is one only if the vault has an active deposit |
| ApyMonitor.RunCycle | src/services/apyMonitor.ts:37-58 | the per-vault loop computes the update cycle for the snapshot and the fetched rates |
| ApyMonitor.CycleStep | src/services/apyMonitor.ts:38-57 | one loop step extends the cycle over the snapshot prefix by one vault |
| ApyMonitor.RebalanceLog | src/services/apyMonitor.ts:71-104 | the loop over deposits logs exactly the rebalance check's recommendations |
| ApyMonitor.DriftRecordsAreDrifts | src/services/apyMonitor.ts:40-55 | a history record is appended iff some snapshot vault drifted by more than 0.1, with that vault's id, the new rate, its TVL and the cycle time |
| ApyMonitor.UnchangedSourceWritesNothing | src/services/apyMonitor.ts:40 | when every fetched rate equals the stored one, no row is written and no record appended |
| ApyMonitor.CycleChangesOnlyRates | src/services/apyMonitor.ts:41-47 | a cycle keeps the number of vaults and changes only rates and update times |
| ApyMonitor.CycleWritesDrifted | src/services/apyMonitor.ts:40-47 | for a snapshot with distinct ids, the row of a snapshot vault takes the fetched rate and the cycle time iff the rate moved by more than 0.1 from the snapshot's, and is unchanged otherwise (in exact arithmetic a move of exactly 0.1 writes nothing) |
| ApyMonitor.CycleLeavesOtherVaults | src/services/apyMonitor.ts:41-47 | a vault missing from the snapshot is left exactly as it was |
| ApyMonitor.RecommendationsAreWorthwhile | src/services/apyMonitor.ts:88-99 | every recommendation comes from a deposit whose opportunity list is non-empty and whose first opportunity beats the vault by more than 1.0, and moves that deposit to that first opportunity's vault, another listed vault whose rate is more than 1.0 higher |
| ApyMonitor.WorthwhileDepositsAreRecommended | src/services/apyMonitor.ts:88-99 | a deposit whose top opportunity beats the vault by more than 1.0 is recommended to that opportunity's vault |
| ApyMonitor.NoDepositsNoRecommendation | src/services/apyMonitor.ts:79 | a vault without active deposits gets no recommendation |
| ApyMonitor.RecommendedIffWorthMoving | src/services/apyMonitor.ts:88-99 | among deposits with distinct ids, a deposit is recommended iff its opportunity list is non-empty and its first opportunity beats the vault by more than 1.0, and then only to that opportunity's vault |
| ApyMonitor.ListedButNotWorthMoving | src/services/apyMonitor.ts:95 | among deposits with distinct ids, a deposit whose first opportunity is at most 1.0 higher gets no recommendation |
| ApyMonitor.CycleRecommendationsSplit | src/services/apyMonitor.ts:37-58 | a cycle's log is the log over all but the last snapshot vault followed by that vault's check |
| ApyMonitor.CycleRecommendationsAreChecks | src/services/apyMonitor.ts:37-58 | a recommendation is logged by a cycle iff the check of some snapshot vault logs it, drifted or not, run after that vault's own write against the re-read table |
| ApyMonitor.CycleRecommendationsUseSnapshotBaseline | src/services/apyMonitor.ts:57 | each recommendation of a cycle moves out of a snapshot vault to a vault more than 1.0 above that vault's rate as the snapshot read it, before the write |
| ApyMonitor.RecordsSince | src/services/apyMonitor.ts:110-114 | the window holds exactly the vault's records at or after its start, each as often as logged |
| ApyMonitor.MeanApy | src/services/apyMonitor.ts:123-126 | an empty list has mean 0; otherwise the mean times the count is the sum of the rates |
| ApyMonitor.ApyHistory | src/services/apyMonitor.ts:106-118 | the history holds exactly the vault's records inside the window, each as often as logged, ascending by time, with records of equal time in log order |
| ApyMonitor.AverageApy | src/services/apyMonitor.ts:120-127 | the average over the sorted history is the mean of the window's rates |
| ApyMonitor.Monitor.GetApyHistory | src/services/apyMonitor.ts:106-118 | the query returns the monitor's records of the vault inside the window (30 days when no length is given), each as often as logged, oldest first |
| ApyMonitor.Monitor.GetAverageApy | src/services/apyMonitor.ts:120-127 | the average is the mean rate of the vault's records in the window (7 days when no length is given), 0 for an empty window |
| ApyMonitor.SumSorted | src/services/apyMonitor.ts:125 | sorting the records does not change the rate sum |
| ApyMonitor.MeanWithinBounds | src/services/apyMonitor.ts:123-126 | the mean of a non-empty window lies between the lowest and highest rate bounds |
| Sorting.SortDescSorts | src/services/aiYieldOptimizer.ts:56 | the sort's output is non-increasing by rank, a permutation of its input, and keeps equal-rank elements in input order |
| Sorting.SortDescFirstTwoDistinct | src/services/aiYieldOptimizer.ts:106-128 | the first two sorted elements are two distinct entries of the input |
| Sorting.SortDescFirstTwo | src/services/aiYieldOptimizer.ts:106-108 | the first element outranks every element, and the second every element other than the first |
| Sideshift.Rate | src/services/sideshiftService.ts:23-40 | every quoted rate is positive; a listed `from-to` pair gives its table entry, and an absent pair gives 1 |
| Sideshift.SameCoinRateIsOne | src/services/sideshiftService.ts:39-40 | a same-coin pair, such as USDC-USDC, converts at 1 |
| Sideshift.GetSwapQuote | src/services/sideshiftService.ts:34-57 | the quote echoes the coins and amount, uses the pair rate, charges 0.5% as fee, settles 0.995 × amount × rate, and reports 300 seconds |
| Sideshift.SettleBounds | src/services/sideshiftService.ts:42 | nothing deposited settles nothing, and a non-negative deposit settles between 0 and its fee-free conversion |
| Sideshift.SwapOrder.constructor | src/services/sideshiftService.ts:67-77 | a new order carries the given coins, address and amounts and is pending |
| Sideshift.SwapOrder.SetStatus | src/services/sideshiftService.ts:81-83 | the status is replaced and recorded at the end of the order's trail |
| Sideshift.CreateSwapOrder | src/services/sideshiftService.ts:59-88 | a fresh order with the inputs' coins, address and amount settles the quote's amount, ends completed, and went pending → processing → completed, always forward |
| Sideshift.ReverseSwap | src/services/sideshiftService.ts:113-120 | the reverse swap makes the same promises as an order created with the same arguments |
| AiChatbot.FallbackIndex | src/services/aiChatbot.ts:98 | a draw in [0, 1) picks one of the four fallbacks |
| AiChatbot.GenerateFallbackResponse | src/services/aiChatbot.ts:90-99 | the fallback is one of the four texts |
| AiChatbot.FirstFallbackQuotesMessage | src/services/aiChatbot.ts:92 | the first fallback contains the user's message |
| AiChatbot.ToLower | src/services/aiChatbot.ts:57 | lower-casing keeps the length, leaves no letter A to Z, moves each such letter by 32 to its lower-case form, and keeps every other character |
| AiChatbot.ToLowerIdempotent | src/services/aiChatbot.ts:57 | lower-casing twice is lower-casing once |
| AiChatbot.Includes | src/services/aiChatbot.ts:82 | the empty key is in every message, and a contained key is no longer than the message |
| AiChatbot.IncludesIffOccurs | src/services/aiChatbot.ts:82 | the substring test holds iff the key occurs at some position |
| AiChatbot.FirstMatch | src/services/aiChatbot.ts:81-85 | a match is the first keyword, in table order, contained in the message; no match means no keyword is contained |
| AiChatbot.Answer | src/services/aiChatbot.ts:57-85 | a topic is found iff some keyword occurs in the lower-cased message |
| AiChatbot.GenerateResponse | src/services/aiChatbot.ts:56-88 | the response is the knowledge-base text of the matched topic, or else the chosen fallback |
| AiChatbot.EarlierKeywordsWin | src/services/aiChatbot.ts:81-85 | a contained keyword guarantees a match at that keyword or an earlier one |
| AiChatbot.MatchIgnoresCase | src/services/aiChatbot.ts:57 | messages equal up to case get the same answer |
| AiChatbot.AnswerOfLowerCase | src/services/aiChatbot.ts:57 | lower-casing the message first does not change the answer |
| AiChatbot.SafeBeatsWithdraw | src/services/aiChatbot.ts:71-85 | a message containing "safe" is answered, and never with the withdrawal text |
| AiChatbot.WhatIsGetsIntroduction | src/services/aiChatbot.ts:60-85 | a message containing "what is" gets the FluxFi introduction, whatever else it contains |
| AiChatbot.Chatbot.constructor | src/services/aiChatbot.ts:35 | a new chatbot has an empty history |
| AiChatbot.Chatbot.SaveChatMessage | src/services/aiChatbot.ts:37-54 | the returned message carries the given user, role and content, and exactly it is appended at the end of the history |
| AiChatbot.Chatbot.ClearHistory | src/services/aiChatbot.ts:111-118 | the history is left empty |
| VaultList.GetRiskLabel | src/components/VaultList.tsx:15-19 | the label is Low Risk iff score ≤ 3, Medium Risk iff 4 ≤ score ≤ 6, High Risk iff score > 6 |
| VaultList.GetRiskColor | src/components/VaultList.tsx:9-13 | the colour is green iff score ≤ 3, yellow iff 4 ≤ score ≤ 6, red iff score > 6 |
| VaultList.LabelAgreesWithColor | src/components/VaultList.tsx:9-19 | two scores share a label iff they share a colour |
| VaultList.BadgeDiffersFromBaseLevelOnlyAtFour | src/components/VaultList.tsx:16-17 | the badge agrees with the risk assessment's base level for every score except 4 |

## Left out

- Database I/O: reads, writes, inserts and deletes become updates of in-memory sequences. The `chat_messages` insert and delete are left out.
- Error handling: the try/catch blocks of the monitor and the early returns on a missing query result are left out. Their console output is left out as well.
- A failing query that ends a whole update cycle is not modelled. The code has a single try around the whole cycle and no per-vault isolation; the model follows the code and adds none.
- Timers and asynchrony: the interval is a `Timer` value set and cleared by start/stop, and each firing is an explicit `Tick` call. The delays in the swap service, and any interleaving between cycles, are left out.
- Randomness: each `Math.random()` draw is a parameter in [0, 1). The monitor takes one draw per active vault; all the fetched rates are computed from the draws before the loop, which gives the same values because each fetch depends only on its snapshot vault and its draw.
- The clock, the message UUID and the message timestamp are parameters.
- The order id, the deposit address (`generateDepositAddress`) and `createdAt` are left out, because they are random or clock values.
- One cycle time `now` stamps every `updated_at` and `recorded_at` written in that cycle; the source reads the clock afresh for each write.
- The history window starts `days` × 86 400 000 ms before `now`; the source steps back calendar days with `setDate`, which differs across daylight-saving changes.
- The history query's sort by `recorded_at` promises nothing for records with equal times; the model keeps them in log order.
- The unordered selects of the active vaults and of a vault's active deposits are taken in table order.
- ApyMonitor.RecommendedIffWorthMoving and ApyMonitor.ListedButNotWorthMoving: assume the deposits' ids are distinct, as the key of the deposit table guarantees.
- ApyMonitor.CycleWritesDrifted: assumes the snapshot's ids are distinct, as the key of the vault table guarantees; rows with a repeated id are not described.
- Floating point: all arithmetic is exact `real`. This moves the drift boundary: with doubles, `Math.abs(1.3 - 1.2)` is slightly above 0.1, so the source can rewrite a row and log a record for a two-decimal move of 0.10, where the model writes nothing. The two-decimal rounding of the fetched rate is modelled as round-half-up; other `toFixed` formatting is not.
- YieldOptimizer.GenerateReason: the reason is modelled as a record of its values, not as the formatted sentence. A zero current rate, which gives a non-finite percentage in the source, is modelled as an absent percentage.
- Sideshift.Rate: the `|| 1` fallback is modelled for a missing or zero entry; a NaN entry cannot occur in the table and is not modelled.
- `monitorMarketConditions`: left out; it only reports a random draw against 0.8.
- `getOrderStatus`: left out; it always answers completed after a delay.
- `getChatHistory`: left out; it is only a query of the table.
- The knowledge-base texts are held verbatim. The 19-entry keyword table is held in source order.
- AiChatbot.GenerateResponse: the non-emptiness of every possible response is not stated. The answer is stated as a knowledge-base entry or a fallback; the lengths of those long texts are not reasoned about.
- AiChatbot.FirstFallbackQuotesMessage: proves that the first fallback embeds the message. That the other three do not embed it is not stated, since they can contain it by accident for short messages.
- AiChatbot.ToLower: lower-cases ASCII letters only; the full Unicode case mapping of `toLowerCase` is not modelled.
- The opportunity sort has no secondary key, and escalation never goes from medium to high. The model follows the code and adds neither.
- The wallet service, the Supabase client and every React component other than the vault list's two badge rules are left out; they are mock data, configuration and rendering.
