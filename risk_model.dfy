/**
 * The risk simulation layer (offchain/simulation/risk_model.py): a risk
 * signature is derived from a token's type, yield, maturity and risk tier,
 * and cached per token address.
 *
 * Python floats are modelled as exact reals and the clock as an explicit
 * `currentTimestamp` argument.
 */
module RiskModel {

  /** `RiskSignature`. */
  datatype RiskSignature = RiskSignature(
    assetAddress: string,
    assetType: string,
    riskTier: int,
    annualYield: real,
    maturityDays: int,
    creditScore: real,
    volatility: real,
    liquidityScore: int,
    counterpartyRisk: real,
    duration: real)

  datatype Error = NoRiskSignature(assetAddress: string)

  datatype Result<T> = Ok(value: T) | Err(error: Error)

  const SecondsPerDay := 86400

  function MinReal(x: real, y: real): real { if x <= y then x else y }
  function MaxReal(x: real, y: real): real { if x >= y then x else y }
  function MinInt(x: int, y: int): int { if x <= y then x else y }
  function MaxInt(x: int, y: int): int { if x >= y then x else y }

  // ---------------------------------------------------------------------
  // Maturity, yield and credit
  // ---------------------------------------------------------------------

  /** Whole days from now to maturity, floored (Python `//`) and never
      negative; 0 when the token has no maturity (timestamp 0). */
  function MaturityDays(maturityTimestamp: int, currentTimestamp: int): (days: int)
    ensures days >= 0
    ensures maturityTimestamp == 0 || maturityTimestamp < currentTimestamp ==> days == 0
    ensures maturityTimestamp != 0 && maturityTimestamp >= currentTimestamp ==>
      days * SecondsPerDay <= maturityTimestamp - currentTimestamp < (days + 1) * SecondsPerDay
  {
    if maturityTimestamp == 0 then 0
    else MaxInt(0, (maturityTimestamp - currentTimestamp) / SecondsPerDay)
  }

  /** Duration in years: the maturity in days over 365. */
  function Duration(maturityTimestamp: int, days: int): (years: real)
    ensures maturityTimestamp == 0 ==> years == 0.0
    ensures maturityTimestamp != 0 ==> years * 365.0 == days as real
    ensures days >= 0 ==> years >= 0.0
    ensures maturityTimestamp != 0 ==> (years >= 1.0 <==> days >= 365)
  {
    if maturityTimestamp == 0 then 0.0 else days as real / 365.0
  }

  /** Basis points to percent. */
  function YieldPercent(annualYieldBps: real): (pct: real)
    ensures pct * 100.0 == annualYieldBps
  {
    annualYieldBps / 100.0
  }

  /** Credit score: 100 less 15 per tier, plus up to 10 points for yield,
      clamped to [0, 100]. */
  function CreditScore(riskTier: int, yieldPct: real): (score: real)
    ensures 0.0 <= score <= 100.0
  {
    var baseCredit := 100 - riskTier * 15;
    var yieldAdjustment := MinReal(10.0, yieldPct * 0.5);
    MaxReal(0.0, MinReal(100.0, baseCredit as real + yieldAdjustment))
  }

  // ---------------------------------------------------------------------
  // Volatility, liquidity, counterparty risk
  // ---------------------------------------------------------------------

  /** Base volatility by asset type, 0.15 for an unknown type. */
  function BaseVolatility(assetType: string): (v: real)
    ensures 0.05 <= v <= 0.35
  {
    if assetType == "corporate-bond" then 0.05
    else if assetType == "real-estate" then 0.12
    else if assetType == "startup-fund" then 0.35
    else if assetType == "revenue-sharing" then 0.20
    else if assetType == "credit-risk-pool" then 0.15
    else 0.15
  }

  /** `_calculate_volatility`: scaled by 30% per tier above 1 and by 1.2
      above a 10% yield, capped at 1.0. */
  function Volatility(assetType: string, riskTier: int, yieldPct: real): (v: real)
    ensures v <= 1.0
    ensures riskTier >= 1 ==> v >= 0.0
  {
    var tierMultiplier := 1.0 + (riskTier - 1) as real * 0.3;
    var volatility := BaseVolatility(assetType) * tierMultiplier;
    var volatility := if yieldPct > 10.0 then volatility * 1.2 else volatility;
    MinReal(1.0, volatility)
  }

  /** Base liquidity by asset type, 50 for an unknown type. */
  function BaseLiquidity(assetType: string): (l: int)
    ensures 20 <= l <= 70
  {
    if assetType == "corporate-bond" then 70
    else if assetType == "real-estate" then 40
    else if assetType == "startup-fund" then 20
    else if assetType == "revenue-sharing" then 50
    else if assetType == "credit-risk-pool" then 60
    else 50
  }

  /** Shorter maturities are more liquid; no maturity adds nothing. */
  function MaturityBonus(maturityDays: int): (b: int)
    ensures -10 <= b <= 20
    ensures maturityDays <= 0 ==> b == 0
    ensures 0 < maturityDays < 90 ==> b == 20
    ensures 90 <= maturityDays < 365 ==> b == 10
    ensures maturityDays >= 365 ==> b == -10
  {
    if maturityDays > 0 then
      if maturityDays < 90 then 20
      else if maturityDays < 365 then 10
      else -10
    else 0
  }

  /** `_calculate_liquidity`: base, maturity bonus and 5 points per tier
      below 6, clamped to [0, 100]. */
  function Liquidity(assetType: string, maturityDays: int, riskTier: int): (l: int)
    ensures 0 <= l <= 100
  {
    var riskAdjustment := (6 - riskTier) * 5;
    var liquidity := BaseLiquidity(assetType) + MaturityBonus(maturityDays) + riskAdjustment;
    MaxInt(0, MinInt(100, liquidity))
  }

  /** Base counterparty risk by asset type, 40 for an unknown type. */
  function BaseCounterpartyRisk(assetType: string): (r: int)
    ensures 15 <= r <= 60
  {
    if assetType == "corporate-bond" then 15
    else if assetType == "real-estate" then 25
    else if assetType == "startup-fund" then 60
    else if assetType == "revenue-sharing" then 35
    else if assetType == "credit-risk-pool" then 30
    else 40
  }

  /** `_calculate_counterparty_risk`: base, 10 points per tier above 1 and
      half the credit shortfall, clamped to [0, 100]. */
  function CounterpartyRisk(assetType: string, riskTier: int, creditScore: real): (r: real)
    ensures 0.0 <= r <= 100.0
  {
    var tierAdjustment := (riskTier - 1) * 10;
    var creditAdjustment := (100.0 - creditScore) / 2.0;
    var risk := (BaseCounterpartyRisk(assetType) + tierAdjustment) as real + creditAdjustment;
    MaxReal(0.0, MinReal(100.0, risk))
  }

  /** The signature `simulate_risk` builds. */
  function Signature(assetAddress: string, assetType: string, annualYieldBps: real,
                     maturityTimestamp: int, riskTier: int, currentTimestamp: int)
    : (sig: RiskSignature)
    ensures sig.assetAddress == assetAddress && sig.assetType == assetType && sig.riskTier == riskTier
    ensures sig.annualYield * 100.0 == annualYieldBps
    ensures sig.maturityDays >= 0 && sig.duration >= 0.0
    ensures 0.0 <= sig.creditScore <= 100.0
    ensures sig.volatility <= 1.0
    ensures 0 <= sig.liquidityScore <= 100
    ensures 0.0 <= sig.counterpartyRisk <= 100.0
  {
    var days := MaturityDays(maturityTimestamp, currentTimestamp);
    var yieldPct := YieldPercent(annualYieldBps);
    var credit := CreditScore(riskTier, yieldPct);
    RiskSignature(
      assetAddress, assetType, riskTier, yieldPct, days, credit,
      Volatility(assetType, riskTier, yieldPct),
      Liquidity(assetType, days, riskTier),
      CounterpartyRisk(assetType, riskTier, credit),
      Duration(maturityTimestamp, days))
  }

  // ---------------------------------------------------------------------
  // RiskSimulator
  // ---------------------------------------------------------------------

  /** The simulator keeps `risk_cache`; `order` records the dictionary's
      insertion order, which `get_all_signatures` follows. */
  class RiskSimulator {
    var cache: map<string, RiskSignature>
    var order: seq<string>

    ghost predicate Valid()
      reads this
    {
      && (forall i, j :: 0 <= i < j < |order| ==> order[i] != order[j])
      && (forall a :: a in cache <==> a in order)
    }

    constructor ()
      ensures Valid()
      ensures cache == map[] && order == []
    {
      cache := map[];
      order := [];
    }

    /** `simulate_risk`: builds the signature and stores it under the
        address, replacing an earlier one in place. */
    method SimulateRisk(assetAddress: string, assetType: string, annualYieldBps: real,
                        maturityTimestamp: int, riskTier: int, currentTimestamp: int)
      returns (sig: RiskSignature)
      requires Valid()
      modifies this
      ensures Valid()
      ensures sig == Signature(assetAddress, assetType, annualYieldBps, maturityTimestamp, riskTier, currentTimestamp)
      ensures cache == old(cache)[assetAddress := sig]
      ensures order == if assetAddress in old(cache) then old(order) else old(order) + [assetAddress]
    {
      sig := Signature(assetAddress, assetType, annualYieldBps, maturityTimestamp, riskTier, currentTimestamp);
      if assetAddress !in cache {
        order := order + [assetAddress];
      }
      cache := cache[assetAddress := sig];
    }

    /** `get_risk_signature`: the cached signature, or an error for an
        address never simulated. */
    method GetRiskSignature(assetAddress: string) returns (r: Result<RiskSignature>)
      ensures assetAddress in cache ==> r == Ok(cache[assetAddress])
      ensures assetAddress !in cache ==> r == Err(NoRiskSignature(assetAddress))
    {
      if assetAddress !in cache {
        return Err(NoRiskSignature(assetAddress));
      }
      return Ok(cache[assetAddress]);
    }

    /** `get_all_signatures`: every cached signature once, in insertion
        order. */
    method GetAllSignatures() returns (sigs: seq<RiskSignature>)
      requires Valid()
      ensures |sigs| == |order| == |cache|
      ensures forall i :: 0 <= i < |order| ==> sigs[i] == cache[order[i]]
      ensures forall a :: a in cache ==> cache[a] in sigs
    {
      var keys, entries := order, cache;
      sigs := seq(|keys|, i requires 0 <= i < |keys| => entries[keys[i]]);
      DistinctKeysCount(order, cache);
      forall a | a in cache
        ensures cache[a] in sigs
      {
        var i :| 0 <= i < |order| && order[i] == a;
        assert sigs[i] == cache[a];
      }
    }
  }

  // ---------------------------------------------------------------------
  // Properties
  // ---------------------------------------------------------------------

  /** A list of distinct keys that are exactly a map's keys is as long as
      the map. */
  lemma {:induction false} DistinctKeysCount<V>(keys: seq<string>, m: map<string, V>)
    requires forall i, j :: 0 <= i < j < |keys| ==> keys[i] != keys[j]
    requires forall a :: a in m <==> a in keys
    ensures |keys| == |m|
    decreases |keys|
  {
    if |keys| > 0 {
      var last := keys[|keys| - 1];
      var init := keys[..|keys| - 1];
      var m' := map a | a in m && a != last :: m[a];
      forall a
        ensures a in m' <==> a in init
      {
        if a in init {
          var i :| 0 <= i < |init| && init[i] == a;
          assert keys[i] == a;
        }
        if a in keys && a != last {
          var i :| 0 <= i < |keys| && keys[i] == a;
          assert i < |keys| - 1;
          assert init[i] == a;
        }
      }
      DistinctKeysCount(init, m');
      assert m.Keys == m'.Keys + {last};
    } else {
      assert m.Keys == {};
    }
  }

  /** A lower tier never lowers the credit score, nor does a higher yield. */
  lemma CreditScoreMonotone(t1: int, t2: int, y1: real, y2: real)
    requires t1 <= t2 && y1 >= y2
    ensures CreditScore(t1, y1) >= CreditScore(t2, y2)
  {
  }

  /** A higher tier never lowers the volatility. */
  lemma VolatilityMonotone(assetType: string, t1: int, t2: int, yieldPct: real)
    requires t1 <= t2
    ensures Volatility(assetType, t1, yieldPct) <= Volatility(assetType, t2, yieldPct)
  {
    var b := BaseVolatility(assetType);
    var m1 := 1.0 + (t1 - 1) as real * 0.3;
    var m2 := 1.0 + (t2 - 1) as real * 0.3;
    assert m1 <= m2;
    assert b * m2 - b * m1 == b * (m2 - m1);
    assert b * (m2 - m1) >= 0.0;
  }

  /** A lower tier and a shorter maturity never lower the liquidity. */
  lemma LiquidityMonotone(assetType: string, d1: int, d2: int, t1: int, t2: int)
    requires 0 < d1 <= d2 && t1 <= t2
    ensures Liquidity(assetType, d1, t1) >= Liquidity(assetType, d2, t2)
  {
  }

  /** A longer duration in days is never a shorter duration in years. */
  lemma DurationMonotone(maturityTimestamp: int, d1: int, d2: int)
    requires d1 <= d2
    ensures Duration(maturityTimestamp, d1) <= Duration(maturityTimestamp, d2)
  {
  }

  /** For a token that has a maturity, the liquidity bonus never grows
      as the maturity gets further away. */
  lemma MaturityBonusMonotone(d1: int, d2: int)
    requires 0 < d1 <= d2
    ensures MaturityBonus(d1) >= MaturityBonus(d2)
  {
  }

  /** Liquidity is not monotone across 0 days: a token whose maturity is
      past or less than a day away (0 days left) loses the short-maturity
      bonus a token 50 days from maturity gets. */
  lemma PastMaturityLosesBonus()
    ensures MaturityDays(100, 50) == 0
    ensures Liquidity("corporate-bond", 0, 5) == 75
    ensures Liquidity("corporate-bond", 50, 5) == 95
  {
  }

  /** A token without maturity gets neither a liquidity bonus nor a
      penalty. */
  lemma NoMaturityNeutral(assetType: string, riskTier: int, currentTimestamp: int)
    ensures Liquidity(assetType, MaturityDays(0, currentTimestamp), riskTier)
         == MaxInt(0, MinInt(100, BaseLiquidity(assetType) + (6 - riskTier) * 5))
  {
  }

  /** A better credit score and a lower tier never raise the counterparty
      risk. */
  lemma CounterpartyRiskMonotone(assetType: string, t1: int, t2: int, c1: real, c2: real)
    requires t1 <= t2 && c1 >= c2
    ensures CounterpartyRisk(assetType, t1, c1) <= CounterpartyRisk(assetType, t2, c2)
  {
  }
}
