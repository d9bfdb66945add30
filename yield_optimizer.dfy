/**
 * The yield optimizer: the opportunity analyser (filter, gain, confidence,
 * confidence gate, sort by gain), the risk classifier and the two-way
 * portfolio splitter.
 */
module YieldOptimizer {

  import opened Wrappers
  import opened Sorting
  import opened VaultService

  /** A candidate must beat the current rate by more than this many points. */
  const ApyThreshold: real := 0.5
  /** An opportunity is emitted only with at least this confidence. */
  const MinConfidence: real := 0.7

  /** The levels `'low' | 'medium' | 'high'`, used both as a risk level and as a risk tolerance. */
  datatype Level = Low | Medium | High

  /**
   * The data the rationale string is built from. The percentage increase is
   * `None` where the source divides by a current rate of 0.
   */
  datatype Reason = Reason(
    suggestedName: string,
    apyDifference: real,
    percentIncrease: Option<real>,
    protocol: string,
    tvlMillions: real)

  datatype Opportunity = Opportunity(
    currentVault: Option<Vault>,
    suggestedVault: Vault,
    apyDifference: real,
    estimatedGain: real,
    confidence: real,
    reason: Reason)

  datatype RiskAssessment = RiskAssessment(
    vaultId: string,
    riskLevel: Level,
    factors: seq<RiskFactor>,
    recommendation: string)

  datatype Allocation = Allocation(vault: Vault, allocation: real)

  // ---------------------------------------------------------------------
  // Gain and confidence
  // ---------------------------------------------------------------------

  /** The extra currency a balance earns in a year at `apyDifference` more points. */
  function CalculateAnnualGain(balance: real, apyDifference: real): (gain: real)
    ensures gain * 100.0 == balance * apyDifference
  {
    (balance * apyDifference) / 100.0
  }

  predicate Established(protocol: string) {
    protocol == "aave" || protocol == "yearn"
  }

  /** `vault.current_apy / (currentVault.current_apy || 1)`. */
  function ApyRatio(vault: Vault, currentVault: Vault): real {
    vault.currentApy / (if currentVault.currentApy == 0.0 then 1.0 else currentVault.currentApy)
  }

  function TvlBonus(vault: Vault): real { if vault.tvl > 50000000.0 then 0.2 else 0.0 }
  function RiskBonus(vault: Vault): real { if vault.riskScore <= 4 then 0.15 else 0.0 }
  function ProtocolBonus(vault: Vault): real { if Established(vault.protocol) then 0.15 else 0.0 }
  function RatioBonus(vault: Vault, currentVault: Vault): real {
    var ratio := ApyRatio(vault, currentVault);
    if 1.2 < ratio < 2.0 then 0.1 else 0.0
  }

  /** Confidence: 0.5 plus the four bonuses, capped at 1. */
  function Confidence(vault: Vault, currentVault: Vault): (c: real)
    ensures 0.5 <= c <= 1.0
  {
    var sum := 0.5 + TvlBonus(vault) + RiskBonus(vault) + ProtocolBonus(vault)
                   + RatioBonus(vault, currentVault);
    if sum < 1.0 then sum else 1.0
  }

  /** The step-by-step accumulation of `calculateConfidence`. */
  method CalculateConfidence(vault: Vault, currentVault: Vault) returns (confidence: real)
    ensures confidence == Confidence(vault, currentVault)
    ensures 0.5 <= confidence <= 1.0
  {
    confidence := 0.5;
    if vault.tvl > 50000000.0 { confidence := confidence + 0.2; }
    if vault.riskScore <= 4 { confidence := confidence + 0.15; }
    if vault.protocol == "aave" || vault.protocol == "yearn" { confidence := confidence + 0.15; }
    var divisor := if currentVault.currentApy == 0.0 then 1.0 else currentVault.currentApy;
    var apyRatio := vault.currentApy / divisor;
    if apyRatio > 1.2 && apyRatio < 2.0 { confidence := confidence + 0.1; }
    confidence := if confidence < 1.0 then confidence else 1.0;
  }

  /**
   * Which bonus combinations pass the gate: the TVL bonus alone, or any two
   * of the three smaller bonuses.
   */
  lemma ConfidenceGate(vault: Vault, currentVault: Vault)
    ensures Confidence(vault, currentVault) >= MinConfidence
        <==> || vault.tvl > 50000000.0
             || (vault.riskScore <= 4 && Established(vault.protocol))
             || (vault.riskScore <= 4 && RatioBonus(vault, currentVault) > 0.0)
             || (Established(vault.protocol) && RatioBonus(vault, currentVault) > 0.0)
  {
  }

  // ---------------------------------------------------------------------
  // Opportunity analysis
  // ---------------------------------------------------------------------

  function GenerateReason(suggestedVault: Vault, currentVault: Vault, apyDifference: real): (r: Reason)
    ensures r.suggestedName == suggestedVault.name && r.protocol == suggestedVault.protocol
    ensures r.apyDifference == apyDifference
    ensures r.percentIncrease.Some? <==> currentVault.currentApy != 0.0
    ensures r.percentIncrease.Some? ==> r.percentIncrease.value * currentVault.currentApy == apyDifference * 100.0
    ensures r.tvlMillions * 1000000.0 == suggestedVault.tvl
  {
    Reason(
      suggestedVault.name,
      apyDifference,
      if currentVault.currentApy == 0.0 then None
      else Some((apyDifference / currentVault.currentApy) * 100.0),
      suggestedVault.protocol,
      suggestedVault.tvl / 1000000.0)
  }

  /** A candidate is emitted against `currentVault` exactly when it passes all three tests. */
  predicate Qualifies(currentVault: Vault, vault: Vault) {
    && vault.id != currentVault.id
    && vault.currentApy - currentVault.currentApy > ApyThreshold
    && Confidence(vault, currentVault) >= MinConfidence
  }

  /** The opportunity record built for one candidate. */
  function Offer(currentVault: Vault, vault: Vault, balance: real): Opportunity {
    var apyDifference := vault.currentApy - currentVault.currentApy;
    Opportunity(
      Some(currentVault), vault, apyDifference,
      CalculateAnnualGain(balance, apyDifference),
      Confidence(vault, currentVault),
      GenerateReason(vault, currentVault, apyDifference))
  }

  /** The opportunities in candidate order, before the sort. */
  function Emitted(currentVault: Option<Vault>, vaults: seq<Vault>, balance: real): seq<Opportunity>
  {
    if currentVault.None? || |vaults| == 0 then []
    else
      var n := |vaults| - 1;
      Emitted(currentVault, vaults[..n], balance)
        + (if Qualifies(currentVault.value, vaults[n]) then [Offer(currentVault.value, vaults[n], balance)] else [])
  }

  function GainRank(o: Opportunity): real { o.estimatedGain }

  /** What `analyzeYieldOpportunities` returns: the emitted list, stably sorted by gain. */
  function Opportunities(currentVault: Option<Vault>, vaults: seq<Vault>, balance: real): seq<Opportunity> {
    SortDesc(Emitted(currentVault, vaults, balance), GainRank)
  }

  method AnalyzeYieldOpportunities(currentVault: Option<Vault>, availableVaults: seq<Vault>, currentBalance: real)
    returns (opportunities: seq<Opportunity>)
    ensures opportunities == Opportunities(currentVault, availableVaults, currentBalance)
    ensures NonIncreasing(opportunities, GainRank)
  {
    var found: seq<Opportunity> := [];
    for i := 0 to |availableVaults|
      invariant found == Emitted(currentVault, availableVaults[..i], currentBalance)
    {
      assert availableVaults[..i + 1][..i] == availableVaults[..i];
      var vault := availableVaults[i];
      if currentVault.None? || vault.id == currentVault.value.id {
        continue;
      }
      var apyDifference := vault.currentApy - currentVault.value.currentApy;
      if apyDifference > ApyThreshold {
        var estimatedGain := CalculateAnnualGain(currentBalance, apyDifference);
        var confidence := CalculateConfidence(vault, currentVault.value);
        if confidence >= MinConfidence {
          found := found + [Opportunity(
            currentVault, vault, apyDifference, estimatedGain, confidence,
            GenerateReason(vault, currentVault.value, apyDifference))];
        }
      }
    }
    assert availableVaults[..|availableVaults|] == availableVaults;
    opportunities := SortDesc(found, GainRank);
    SortDescOrdered(found, GainRank);
  }

  /** With no current vault there is no baseline, so nothing is suggested. */
  lemma NoBaselineNoOpportunities(vaults: seq<Vault>, balance: real)
    ensures Opportunities(None, vaults, balance) == []
  {
  }

  lemma {:induction false} EmittedMembers(currentVault: Vault, vaults: seq<Vault>, balance: real, o: Opportunity)
    ensures o in Emitted(Some(currentVault), vaults, balance)
        <==> exists v :: v in vaults && Qualifies(currentVault, v) && o == Offer(currentVault, v, balance)
  {
    if |vaults| > 0 {
      var n := |vaults| - 1;
      EmittedMembers(currentVault, vaults[..n], balance, o);
      assert vaults == vaults[..n] + [vaults[n]];
      forall v | v in vaults ensures v in vaults[..n] || v == vaults[n] {}
    }
  }

  /**
   * Exactly the qualifying candidates are suggested: `o` is in the result iff
   * it is the offer for a candidate that is not the current vault, beats it
   * by more than the threshold and passes the confidence gate.
   */
  lemma OpportunitiesAreQualifyingOffers(currentVault: Vault, vaults: seq<Vault>, balance: real, o: Opportunity)
    ensures o in Opportunities(Some(currentVault), vaults, balance)
        <==> exists v :: v in vaults && Qualifies(currentVault, v) && o == Offer(currentVault, v, balance)
  {
    var e := Emitted(Some(currentVault), vaults, balance);
    SortDescPermutes(e, GainRank);
    assert o in SortDesc(e, GainRank) <==> o in multiset(SortDesc(e, GainRank));
    assert o in e <==> o in multiset(e);
    EmittedMembers(currentVault, vaults, balance, o);
  }

  /** The fields of every suggestion, in the source's terms. */
  lemma OpportunityFields(currentVault: Vault, vaults: seq<Vault>, balance: real, o: Opportunity)
    requires o in Opportunities(Some(currentVault), vaults, balance)
    ensures o.currentVault == Some(currentVault)
    ensures o.suggestedVault in vaults && o.suggestedVault.id != currentVault.id
    ensures o.apyDifference == o.suggestedVault.currentApy - currentVault.currentApy
    ensures o.apyDifference > ApyThreshold
    ensures o.estimatedGain == balance * o.apyDifference / 100.0
    ensures o.confidence == Confidence(o.suggestedVault, currentVault) && o.confidence >= MinConfidence
  {
    OpportunitiesAreQualifyingOffers(currentVault, vaults, balance, o);
  }

  lemma {:induction false} EmittedOfferedAtMostOnce(currentVault: Option<Vault>, vaults: seq<Vault>, balance: real)
    ensures multiset(Suggested(Emitted(currentVault, vaults, balance))) <= multiset(vaults)
  {
    if currentVault.Some? && |vaults| > 0 {
      var n := |vaults| - 1;
      var v := vaults[n];
      var tail := if Qualifies(currentVault.value, v) then [Offer(currentVault.value, v, balance)] else [];
      EmittedOfferedAtMostOnce(currentVault, vaults[..n], balance);
      SuggestedAppend(Emitted(currentVault, vaults[..n], balance), tail);
      assert vaults == vaults[..n] + [v];
      assert multiset(vaults) == multiset(vaults[..n]) + multiset{v};
    }
  }

  /** The suggested vaults, in order. */
  function Suggested(os: seq<Opportunity>): (vs: seq<Vault>)
    ensures |vs| == |os|
  {
    if os == [] then [] else [os[0].suggestedVault] + Suggested(os[1..])
  }

  lemma {:induction false} SuggestedAppend(a: seq<Opportunity>, b: seq<Opportunity>)
    ensures Suggested(a + b) == Suggested(a) + Suggested(b)
  {
    if a == [] {
      assert a + b == b;
    } else {
      assert (a + b)[1..] == a[1..] + b;
      SuggestedAppend(a[1..], b);
    }
  }

  lemma {:induction false} SuggestedInsert(x: Opportunity, s: seq<Opportunity>)
    ensures multiset(Suggested(Insert(x, s, GainRank))) == multiset(Suggested(s)) + multiset{x.suggestedVault}
  {
    if s == [] || GainRank(x) >= GainRank(s[0]) {
      assert Suggested([x] + s) == [x.suggestedVault] + Suggested(s);
    } else {
      SuggestedInsert(x, s[1..]);
      assert Insert(x, s, GainRank) == [s[0]] + Insert(x, s[1..], GainRank);
      assert Suggested(s) == [s[0].suggestedVault] + Suggested(s[1..]);
    }
  }

  lemma {:induction false} SuggestedSort(s: seq<Opportunity>)
    ensures multiset(Suggested(SortDesc(s, GainRank))) == multiset(Suggested(s))
  {
    if s != [] {
      SuggestedSort(s[1..]);
      SuggestedInsert(s[0], SortDesc(s[1..], GainRank));
    }
  }

  /** Each candidate is suggested at most as often as it occurs among the candidates. */
  lemma AtMostOnePerCandidate(currentVault: Option<Vault>, vaults: seq<Vault>, balance: real)
    ensures multiset(Suggested(Opportunities(currentVault, vaults, balance))) <= multiset(vaults)
    ensures |Opportunities(currentVault, vaults, balance)| <= |vaults|
  {
    SuggestedSort(Emitted(currentVault, vaults, balance));
    EmittedOfferedAtMostOnce(currentVault, vaults, balance);
    var s := Suggested(Opportunities(currentVault, vaults, balance));
    assert multiset(vaults) == multiset(s) + (multiset(vaults) - multiset(s));
    assert |multiset(vaults)| == |vaults| && |multiset(s)| == |s|;
  }

  /**
   * The result is in non-increasing order of estimated gain, and opportunities
   * of equal gain keep the candidates' order (no secondary key).
   */
  lemma OpportunitiesByGain(currentVault: Option<Vault>, vaults: seq<Vault>, balance: real, gain: real)
    ensures NonIncreasing(Opportunities(currentVault, vaults, balance), GainRank)
    ensures WithRank(Opportunities(currentVault, vaults, balance), GainRank, gain)
         == WithRank(Emitted(currentVault, vaults, balance), GainRank, gain)
  {
    SortDescOrdered(Emitted(currentVault, vaults, balance), GainRank);
    SortDescStable(Emitted(currentVault, vaults, balance), GainRank, gain);
  }

  /** For a positive balance the first suggestion has the largest rate difference. */
  lemma TopOpportunityHasLargestDifference(currentVault: Vault, vaults: seq<Vault>, balance: real, k: nat)
    requires balance > 0.0
    requires k < |Opportunities(Some(currentVault), vaults, balance)|
    ensures Opportunities(Some(currentVault), vaults, balance)[0].apyDifference
         >= Opportunities(Some(currentVault), vaults, balance)[k].apyDifference
  {
    var r := Opportunities(Some(currentVault), vaults, balance);
    if 0 < k {
      SortDescOrdered(Emitted(Some(currentVault), vaults, balance), GainRank);
      assert GainRank(r[0]) >= GainRank(r[k]);
      OpportunityFields(currentVault, vaults, balance, r[0]);
      OpportunityFields(currentVault, vaults, balance, r[k]);
      GainOrdersDifferences(balance, r[0].apyDifference, r[k].apyDifference);
    }
  }

  lemma GainOrdersDifferences(balance: real, d1: real, d2: real)
    requires balance > 0.0
    requires balance * d1 / 100.0 >= balance * d2 / 100.0
    ensures d1 >= d2
  {
    var g := balance * (d1 - d2);
    assert g >= 0.0;
    assert d1 - d2 == g / balance;
  }

  /**
   * The worked example: current 4.8%, candidate 6.5% on an established
   * protocol with more than 50M TVL and risk at most 4, balance 10,000.
   */
  lemma EstablishedCandidateScenario(currentVault: Vault, candidate: Vault)
    requires currentVault.currentApy == 4.8 && candidate.currentApy == 6.5
    requires candidate.id != currentVault.id
    requires candidate.tvl > 50000000.0 && candidate.riskScore <= 4 && candidate.protocol == "aave"
    ensures Confidence(candidate, currentVault) == 1.0
    ensures Offer(currentVault, candidate, 10000.0).estimatedGain == 170.0
    ensures Offer(currentVault, candidate, 10000.0) in Opportunities(Some(currentVault), [currentVault, candidate], 10000.0)
  {
    OpportunitiesAreQualifyingOffers(currentVault, [currentVault, candidate], 10000.0, Offer(currentVault, candidate, 10000.0));
  }

  // ---------------------------------------------------------------------
  // Risk assessment
  // ---------------------------------------------------------------------

  /** The factor strings of the rules, listed in the order the rules run, then the fallback. */
  datatype RiskFactor = HighScore | ModerateScore | LowerTvl | UnusuallyHighApy | ImpermanentLoss | Minimal

  function FactorText(f: RiskFactor): string {
    match f
    case HighScore => "High protocol risk score"
    case ModerateScore => "Moderate protocol risk"
    case LowerTvl => "Lower total value locked"
    case UnusuallyHighApy => "Unusually high APY - verify sustainability"
    case ImpermanentLoss => "Liquidity pool exposure to impermanent loss"
    case Minimal => "Minimal risk factors detected"
  }

  /** The position of a factor among the rules. */
  function RulePosition(f: RiskFactor): nat {
    match f
    case HighScore => 0
    case ModerateScore => 1
    case LowerTvl => 2
    case UnusuallyHighApy => 3
    case ImpermanentLoss => 4
    case Minimal => 5
  }

  /** The level from the risk score alone. */
  function BaseLevel(riskScore: int): Level {
    if riskScore >= 7 then High else if riskScore >= 5 then Medium else Low
  }

  function LevelRank(l: Level): nat {
    match l
    case Low => 0
    case Medium => 1
    case High => 2
  }

  predicate LowTvl(vault: Vault) { vault.tvl < 10000000.0 }
  predicate HighApy(vault: Vault) { vault.currentApy > 15.0 }
  predicate LiquidityPool(vault: Vault) { vault.protocol == "quickswap" }

  /** The level: the base level, lifted from low to medium by a small TVL or a high rate. */
  function RiskLevelOf(vault: Vault): Level {
    var base := BaseLevel(vault.riskScore);
    if base == Low && (LowTvl(vault) || HighApy(vault)) then Medium else base
  }

  /** The factors of the rules that fired, or the single `Minimal` factor when none did. */
  function RiskFactors(vault: Vault): seq<RiskFactor> {
    var fired := FiredFactors(vault);
    if fired == [] then [Minimal] else fired
  }

  /** The factors of the rules that fire, in the order the rules run. */
  function FiredFactors(vault: Vault): seq<RiskFactor> {
    ScoreFactors(vault) + TvlFactors(vault) + ApyFactors(vault) + ProtocolFactors(vault)
  }

  function ScoreFactors(vault: Vault): seq<RiskFactor> {
    if vault.riskScore >= 7 then [HighScore] else if vault.riskScore >= 5 then [ModerateScore] else []
  }
  function TvlFactors(vault: Vault): seq<RiskFactor> { if LowTvl(vault) then [LowerTvl] else [] }
  function ApyFactors(vault: Vault): seq<RiskFactor> { if HighApy(vault) then [UnusuallyHighApy] else [] }
  function ProtocolFactors(vault: Vault): seq<RiskFactor> { if LiquidityPool(vault) then [ImpermanentLoss] else [] }

  function Assessment(vault: Vault): RiskAssessment {
    var level := RiskLevelOf(vault);
    RiskAssessment(vault.id, level, RiskFactors(vault), GenerateRiskRecommendation(level, vault))
  }

  /** The factor list as `assessRisk` reports it: each factor as its text, in order. */
  function FactorStrings(factors: seq<RiskFactor>): (texts: seq<string>)
    ensures |texts| == |factors|
    ensures forall i {:trigger texts[i]} :: 0 <= i < |factors| ==> texts[i] == FactorText(factors[i])
    ensures FactorText(Minimal) in texts <==> Minimal in factors
  {
    var texts := seq(|factors|, i requires 0 <= i < |factors| => FactorText(factors[i]));
    assert Minimal in factors ==> FactorText(Minimal) in texts by {
      if Minimal in factors {
        var i :| 0 <= i < |factors| && factors[i] == Minimal;
        assert texts[i] == FactorText(Minimal);
      }
    }
    assert FactorText(Minimal) in texts ==> Minimal in factors by {
      if FactorText(Minimal) in texts {
        var i :| 0 <= i < |texts| && texts[i] == FactorText(Minimal);
        MinimalTextUnique(factors[i]);
      }
    }
    texts
  }

  /** Only the fallback factor has the fallback text: it is the one text of its length. */
  lemma MinimalTextUnique(f: RiskFactor)
    ensures FactorText(f) == FactorText(Minimal) ==> f == Minimal
  {
    assert |FactorText(Minimal)| == 29;
    assert f != Minimal ==> |FactorText(f)| != 29;
  }

  /** The reported list is the lone minimal-risk text exactly when no rule fired. */
  lemma MinimalTextIffNoRule(vault: Vault)
    ensures FactorStrings(Assessment(vault).factors) == [FactorText(Minimal)]
        <==> !(vault.riskScore >= 5 || LowTvl(vault) || HighApy(vault) || LiquidityPool(vault))
  {
    var factors := Assessment(vault).factors;
    var texts := FactorStrings(factors);
    FactorsNeverEmpty(vault);
    if texts == [FactorText(Minimal)] {
      assert |factors| == 1 && texts[0] == FactorText(factors[0]);
      MinimalTextUnique(factors[0]);
      assert factors == [Minimal];
    }
    if factors == [Minimal] {
      assert texts == [FactorText(Minimal)];
    }
  }

  /** The recommendation template chosen by the level: the vault name, then the level's advice. */
  function GenerateRiskRecommendation(riskLevel: Level, vault: Vault): (text: string)
    ensures |text| >= |vault.name|
    ensures text[..|vault.name|] == vault.name
    ensures text[|vault.name|..] == RiskAdvice(riskLevel)
  {
    vault.name + RiskAdvice(riskLevel)
  }

  /** The advice that follows the vault name, one sentence group per level. */
  function RiskAdvice(riskLevel: Level): string {
    match riskLevel
    case Low => " is suitable for" + " conservative investors." + " Proceed with confidence."
    case Medium => " has moderate risk." + " Suitable for balanced" + " portfolios." + " Monitor regularly."
    case High => " has elevated risk factors." + " Only suitable for" + " risk-tolerant investors." + " Consider limiting exposure."
  }

  /** The sixth character of each advice tells the levels apart. */
  function AdviceMark(riskLevel: Level): char {
    match riskLevel
    case Low => 'u'
    case Medium => 'm'
    case High => 'e'
  }

  lemma AdviceMarked(riskLevel: Level)
    ensures |RiskAdvice(riskLevel)| > 5 && RiskAdvice(riskLevel)[5] == AdviceMark(riskLevel)
  {
    match riskLevel
    case Low =>
    case Medium =>
    case High =>
  }

  /** The three advices differ. */
  lemma AdviceDistinct(l1: Level, l2: Level)
    ensures RiskAdvice(l1) == RiskAdvice(l2) ==> l1 == l2
  {
    AdviceMarked(l1);
    AdviceMarked(l2);
  }

  /** The steps of `assessRisk`: the level variable and the factor list are updated rule by rule. */
  method AssessRisk(vault: Vault) returns (assessment: RiskAssessment)
    ensures assessment == Assessment(vault)
  {
    var factors: seq<RiskFactor> := [];
    var riskLevel := Low;
    if vault.riskScore >= 7 {
      riskLevel := High;
      factors := factors + [HighScore];
    } else if vault.riskScore >= 5 {
      riskLevel := Medium;
      factors := factors + [ModerateScore];
    }
    assert factors == ScoreFactors(vault) && riskLevel == BaseLevel(vault.riskScore);
    if vault.tvl < 10000000.0 {
      factors := factors + [LowerTvl];
      if riskLevel == Low { riskLevel := Medium; }
    }
    assert factors == ScoreFactors(vault) + TvlFactors(vault);
    if vault.currentApy > 15.0 {
      factors := factors + [UnusuallyHighApy];
      if riskLevel == Low { riskLevel := Medium; }
    }
    assert factors == ScoreFactors(vault) + TvlFactors(vault) + ApyFactors(vault);
    assert riskLevel == RiskLevelOf(vault);
    if vault.protocol == "quickswap" {
      factors := factors + [ImpermanentLoss];
    }
    var recommendation := GenerateRiskRecommendation(riskLevel, vault);
    assessment := RiskAssessment(
      vault.id, riskLevel, if |factors| > 0 then factors else [Minimal], recommendation);
  }

  /** The level is high exactly for risk scores of 7 and more. */
  lemma HighIffScoreAtLeastSeven(vault: Vault)
    ensures Assessment(vault).riskLevel == High <==> vault.riskScore >= 7
  {
  }

  /** Escalation only ever lifts low to medium: it never lowers a level and never yields high. */
  lemma EscalationOnlyLiftsLow(vault: Vault)
    ensures LevelRank(RiskLevelOf(vault)) >= LevelRank(BaseLevel(vault.riskScore))
    ensures RiskLevelOf(vault) != BaseLevel(vault.riskScore)
        ==> BaseLevel(vault.riskScore) == Low && RiskLevelOf(vault) == Medium
    ensures RiskLevelOf(vault) == Medium <==> 5 <= vault.riskScore < 7 || (vault.riskScore < 5 && (LowTvl(vault) || HighApy(vault)))
  {
  }

  /** The protocol (and so the liquidity-pool rule) never changes the level. */
  lemma LevelIgnoresProtocol(vault: Vault, protocol: string)
    ensures RiskLevelOf(vault.(protocol := protocol)) == RiskLevelOf(vault)
  {
  }

  ghost predicate InRuleOrder(fs: seq<RiskFactor>) {
    forall i, j :: 0 <= i < j < |fs| ==> RulePosition(fs[i]) < RulePosition(fs[j])
  }

  /** The factor list is never empty; it is the single `Minimal` factor exactly when no rule fired. */
  lemma FactorsNeverEmpty(vault: Vault)
    ensures |Assessment(vault).factors| > 0
    ensures Assessment(vault).factors == [Minimal]
        <==> !(vault.riskScore >= 5 || LowTvl(vault) || HighApy(vault) || LiquidityPool(vault))
  {
    var fired := FiredFactors(vault);
    assert Minimal !in ScoreFactors(vault) && Minimal !in TvlFactors(vault);
    assert Minimal !in ApyFactors(vault) && Minimal !in ProtocolFactors(vault);
    assert Minimal !in fired;
    if fired != [] {
      assert fired[0] in fired;
    }
  }

  lemma InRuleOrderAppend(a: seq<RiskFactor>, b: seq<RiskFactor>)
    requires InRuleOrder(a) && InRuleOrder(b)
    requires forall x, y :: x in a && y in b ==> RulePosition(x) < RulePosition(y)
    ensures InRuleOrder(a + b)
  {
    forall i, j | 0 <= i < j < |a + b| ensures RulePosition((a + b)[i]) < RulePosition((a + b)[j]) {
      if j < |a| {
      } else if i < |a| {
        assert (a + b)[i] in a && (a + b)[j] in b;
      } else {
        assert (a + b)[i] == b[i - |a|] && (a + b)[j] == b[j - |a|];
      }
    }
  }

  /** The factors appear in the order the rules run. */
  lemma FactorsInRuleOrder(vault: Vault)
    ensures InRuleOrder(Assessment(vault).factors)
  {
    var s, t, p, q := ScoreFactors(vault), TvlFactors(vault), ApyFactors(vault), ProtocolFactors(vault);
    InRuleOrderAppend(s, t);
    InRuleOrderAppend(s + t, p);
    InRuleOrderAppend(s + t + p, q);
  }

  /** The condition under which each rule contributes its factor. */
  predicate RuleFires(vault: Vault, f: RiskFactor) {
    match f
    case HighScore => vault.riskScore >= 7
    case ModerateScore => 5 <= vault.riskScore < 7
    case LowerTvl => LowTvl(vault)
    case UnusuallyHighApy => HighApy(vault)
    case ImpermanentLoss => LiquidityPool(vault)
    case Minimal => false
  }

  /** Each rule contributes its factor exactly when it fires. */
  lemma FactorPresentIffRuleFires(vault: Vault, f: RiskFactor)
    requires f != Minimal
    ensures f in Assessment(vault).factors <==> RuleFires(vault, f)
  {
    var s, t, p, q := ScoreFactors(vault), TvlFactors(vault), ApyFactors(vault), ProtocolFactors(vault);
    assert FiredFactors(vault) == s + t + p + q;
    assert f in s + t + p + q <==> f in s || f in t || f in p || f in q;
    match f
    case HighScore =>
    case ModerateScore =>
    case LowerTvl =>
    case UnusuallyHighApy =>
    case ImpermanentLoss =>
  }

  /** Different levels give different recommendations for the same vault. */
  lemma RecommendationDeterminesLevel(l1: Level, l2: Level, vault: Vault)
    requires GenerateRiskRecommendation(l1, vault) == GenerateRiskRecommendation(l2, vault)
    ensures l1 == l2
  {
    AdviceDistinct(l1, l2);
  }

  // ---------------------------------------------------------------------
  // Portfolio split
  // ---------------------------------------------------------------------

  const PrimaryShare: real := 0.7
  const SecondaryShare: real := 0.3

  predicate WithinTolerance(vault: Vault, riskTolerance: Level) {
    match riskTolerance
    case Low => vault.riskScore <= 4
    case Medium => vault.riskScore <= 6
    case High => true
  }

  /** The vaults a tolerance admits, in input order, each as often as it is listed. */
  function Eligible(vaults: seq<Vault>, riskTolerance: Level): (r: seq<Vault>)
    ensures forall v {:trigger v in r} :: v in r <==> v in vaults && WithinTolerance(v, riskTolerance)
    ensures forall v {:trigger multiset(r)[v]} ::
      multiset(r)[v] == if WithinTolerance(v, riskTolerance) then multiset(vaults)[v] else 0
    ensures |r| <= |vaults|
  {
    if vaults == [] then []
    else
      assert vaults == [vaults[0]] + vaults[1..];
      assert multiset(vaults) == multiset{vaults[0]} + multiset(vaults[1..]);
      (if WithinTolerance(vaults[0], riskTolerance) then [vaults[0]] else []) + Eligible(vaults[1..], riskTolerance)
  }

  function ApyRank(v: Vault): real { v.currentApy }

  function TotalAllocated(allocations: seq<Allocation>): real {
    if allocations == [] then 0.0 else allocations[0].allocation + TotalAllocated(allocations[1..])
  }

  /** The eligible vaults ranked by rate, highest first; equal rates keep their input order. */
  function Ranked(vaults: seq<Vault>, riskTolerance: Level): seq<Vault> {
    SortDesc(Eligible(vaults, riskTolerance), ApyRank)
  }

  /** The split `optimizePortfolio` returns. */
  function Portfolio(vaults: seq<Vault>, totalBalance: real, riskTolerance: Level): seq<Allocation> {
    var ranked := Ranked(vaults, riskTolerance);
    if |ranked| == 0 then []
    else if |ranked| == 1 then [Allocation(ranked[0], totalBalance)]
    else [Allocation(ranked[0], totalBalance * PrimaryShare), Allocation(ranked[1], totalBalance * SecondaryShare)]
  }

  method OptimizePortfolio(vaults: seq<Vault>, totalBalance: real, riskTolerance: Level)
    returns (allocations: seq<Allocation>)
    ensures allocations == Portfolio(vaults, totalBalance, riskTolerance)
    ensures |allocations| <= 2
  {
    var filteredVaults := Eligible(vaults, riskTolerance);
    var sortedVaults := SortDesc(filteredVaults, ApyRank);
    if |sortedVaults| == 0 {
      return [];
    }
    if |sortedVaults| == 1 {
      return [Allocation(sortedVaults[0], totalBalance)];
    }
    allocations := [];
    var primaryAllocation := totalBalance * PrimaryShare;
    var secondaryAllocation := totalBalance * SecondaryShare;
    allocations := allocations + [Allocation(sortedVaults[0], primaryAllocation)];
    allocations := allocations + [Allocation(sortedVaults[1], secondaryAllocation)];
  }

  /** No eligible vault gives the empty split, and only then. */
  lemma PortfolioEmptyIffNoneEligible(vaults: seq<Vault>, totalBalance: real, riskTolerance: Level)
    ensures Portfolio(vaults, totalBalance, riskTolerance) == []
        <==> forall v :: v in vaults ==> !WithinTolerance(v, riskTolerance)
  {
    var e := Eligible(vaults, riskTolerance);
    forall v | v in vaults && WithinTolerance(v, riskTolerance) ensures v in e { }
    if e != [] {
      assert e[0] in e;
    }
  }

  /** Every allocated vault is one of the inputs and within the tolerance. */
  lemma PortfolioOnlyEligible(vaults: seq<Vault>, totalBalance: real, riskTolerance: Level)
    ensures forall a ::
      a in Portfolio(vaults, totalBalance, riskTolerance) ==> a.vault in vaults && WithinTolerance(a.vault, riskTolerance)
  {
    var e := Eligible(vaults, riskTolerance);
    SortDescSorts(e, ApyRank);
    var p := Portfolio(vaults, totalBalance, riskTolerance);
    forall a | a in p ensures a.vault in e {
      var ranked := Ranked(vaults, riskTolerance);
      assert a.vault == ranked[0] || a.vault == ranked[1];
      assert a.vault in ranked;
    }
  }

  /** A non-empty split hands out exactly the balance. */
  lemma PortfolioSumsToBalance(vaults: seq<Vault>, totalBalance: real, riskTolerance: Level)
    requires Portfolio(vaults, totalBalance, riskTolerance) != []
    ensures TotalAllocated(Portfolio(vaults, totalBalance, riskTolerance)) == totalBalance
  {
    var p := Portfolio(vaults, totalBalance, riskTolerance);
    if |p| == 2 {
      assert p[1..] == [p[1]];
      assert TotalAllocated(p[1..]) == p[1].allocation + TotalAllocated([]);
    }
  }

  /** A single eligible vault receives the whole balance. */
  lemma PortfolioSingleVault(vaults: seq<Vault>, totalBalance: real, riskTolerance: Level)
    requires |Eligible(vaults, riskTolerance)| == 1
    ensures Portfolio(vaults, totalBalance, riskTolerance)
         == [Allocation(Eligible(vaults, riskTolerance)[0], totalBalance)]
  {
    var e := Eligible(vaults, riskTolerance);
    var ranked := Ranked(vaults, riskTolerance);
    SortDescPermutes(e, ApyRank);
    assert e == [e[0]];
    assert ranked[0] in multiset(ranked);
  }

  /**
   * With two or more eligible vaults, exactly the two highest rates are
   * allocated, 70% and 30%, to two distinct entries of the eligible list,
   * and every other eligible vault gets nothing.
   */
  lemma PortfolioTopTwo(vaults: seq<Vault>, totalBalance: real, riskTolerance: Level)
    requires |Eligible(vaults, riskTolerance)| >= 2
    ensures var p := Portfolio(vaults, totalBalance, riskTolerance);
      && |p| == 2
      && p[0].allocation == totalBalance * 0.7 && p[1].allocation == totalBalance * 0.3
      && multiset{p[0].vault, p[1].vault} <= multiset(Eligible(vaults, riskTolerance))
      && (forall v :: v in vaults && WithinTolerance(v, riskTolerance)
            ==> v.currentApy <= p[0].vault.currentApy)
      && (forall v :: v in multiset(Eligible(vaults, riskTolerance)) - multiset{p[0].vault}
            ==> v.currentApy <= p[1].vault.currentApy)
  {
    var e := Eligible(vaults, riskTolerance);
    SortDescFirstTwo(e, ApyRank);
    SortDescFirstTwoDistinct(e, ApyRank);
    forall v | v in vaults && WithinTolerance(v, riskTolerance) ensures v in e { }
  }

  /** With tolerance low and scores 3, 5 and 8, only the score-3 vault is eligible and gets everything. */
  lemma LowToleranceScenario(a: Vault, b: Vault, c: Vault, totalBalance: real)
    requires a.riskScore == 3 && b.riskScore == 5 && c.riskScore == 8
    ensures Eligible([a, b, c], Low) == [a]
    ensures Portfolio([a, b, c], totalBalance, Low) == [Allocation(a, totalBalance)]
  {
    assert [a, b, c][1..] == [b, c];
    assert [b, c][1..] == [c];
    assert Eligible([c], Low) == [];
    assert Eligible([b, c], Low) == [];
    assert SortDesc([a], ApyRank) == [a];
  }
}
