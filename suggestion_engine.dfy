/**
 * The vault suggestion engine (offchain/ai_agent/suggestion_engine.py):
 * registered vaults are scored against a user's preferences, ranked by
 * score, filtered to those scoring at least 50 and cut to the requested
 * number of recommendations.
 *
 * Python floats are modelled as exact reals.
 */
module SuggestionEngine {

  datatype Option<T> = None | Some(value: T)

  /** `RiskTolerance`, valued 1 to 5. */
  datatype RiskTolerance = Conservative | Moderate | Balanced | Growth | Aggressive
  {
    function Value(): int
    {
      match this
      case Conservative => 1
      case Moderate => 2
      case Balanced => 3
      case Growth => 4
      case Aggressive => 5
    }

    /** The member's name, lower-cased. */
    function LowerName(): string
    {
      match this
      case Conservative => "conservative"
      case Moderate => "moderate"
      case Balanced => "balanced"
      case Growth => "growth"
      case Aggressive => "aggressive"
    }
  }

  datatype Timeframe = ShortTerm | MediumTerm | LongTerm
  {
    function Value(): string
    {
      match this
      case ShortTerm => "short"
      case MediumTerm => "medium"
      case LongTerm => "long"
    }
  }

  /** `UserPreferences`; `None` stands for Python's `None`. */
  datatype UserPreferences = UserPreferences(
    timeframe: Timeframe,
    riskTolerance: RiskTolerance,
    amount: real,
    minYield: Option<real>,
    preferredAssetTypes: Option<seq<string>>)

  /** The entries of a registered vault's dictionary that the engine reads;
      `target_duration` (days) and `expected_yield` (percent) may be absent. */
  datatype VaultInfo = VaultInfo(
    address: string,
    name: string,
    riskTier: int,
    targetDuration: Option<int>,
    expectedYield: Option<real>)

  datatype Recommendation = Recommendation(
    vaultAddress: string,
    vaultName: string,
    matchScore: real,
    riskTier: int,
    expectedYield: real,
    timeframeMatch: bool,
    reasoning: string)

  function Abs(x: int): nat { if x < 0 then -x else x }
  function MinReal(x: real, y: real): real { if x <= y then x else y }
  function MaxReal(x: real, y: real): real { if x >= y then x else y }

  /** `vault.get("target_duration", 0)`. */
  function DurationOf(v: VaultInfo): int
  {
    if v.targetDuration.Some? then v.targetDuration.value else 0
  }

  /** `vault.get("expected_yield", 0.0)`. */
  function YieldOf(v: VaultInfo): real
  {
    if v.expectedYield.Some? then v.expectedYield.value else 0.0
  }

  // ---------------------------------------------------------------------
  // Scoring
  // ---------------------------------------------------------------------

  /** `_match_risk_tier`: 100, 80, 50 or 20 by the distance between the
      vault's tier and the user's tolerance. */
  function MatchRiskTier(vaultRiskTier: int, userRisk: RiskTolerance): (r: real)
    ensures 20.0 <= r <= 100.0
    ensures r >= 80.0 <==> Abs(vaultRiskTier - userRisk.Value()) <= 1
  {
    var d := vaultRiskTier - userRisk.Value();
    if d == 0 then 100.0
    else if Abs(d) == 1 then 80.0
    else if Abs(d) == 2 then 50.0
    else 20.0
  }

  /** `_check_timeframe_match`: short up to 365 days, medium above 365 and up
      to 1095, long above 1095. */
  function CheckTimeframeMatch(v: VaultInfo, userTimeframe: Timeframe): (r: bool)
    ensures v.targetDuration.None? ==> (r <==> userTimeframe == ShortTerm)
  {
    var d := DurationOf(v);
    match userTimeframe
    case ShortTerm => d <= 365
    case MediumTerm => 365 < d <= 1095
    case LongTerm => d > 1095
  }

  /** `min_yield` is falsy when it is `None` or zero. */
  predicate NoYieldPreference(p: UserPreferences)
  {
    p.minYield.None? || p.minYield.value == 0.0
  }

  /** The yield part of the match score (20% weight). */
  function YieldPoints(v: VaultInfo, p: UserPreferences): (r: real)
    ensures 0.0 <= r
    ensures NoYieldPreference(p) ==> r == 10.0
    ensures !NoYieldPreference(p) && YieldOf(v) >= p.minYield.value ==> r == 20.0
  {
    if NoYieldPreference(p) then 50.0 * 0.2
    else
      var vaultYield := YieldOf(v);
      if vaultYield >= p.minYield.value then 100.0 * 0.2
      else MaxReal(0.0, (vaultYield / p.minYield.value) * 100.0) * 0.2
  }

  /** The asset-type part (10% weight): a placeholder in the source, neutral
      whether or not preferred types are given. */
  function AssetTypePoints(p: UserPreferences): real
  {
    if p.preferredAssetTypes.Some? && |p.preferredAssetTypes.value| > 0 then 50.0 * 0.1
    else 50.0 * 0.1
  }

  /** `_calculate_match_score`: the weighted sum, capped at 100. */
  function MatchScore(v: VaultInfo, p: UserPreferences): (r: real)
    ensures 0.0 <= r <= 100.0
  {
    var score := 0.0;
    var score := score + MatchRiskTier(v.riskTier, p.riskTolerance) * 0.4;
    var score := score + (if CheckTimeframeMatch(v, p.timeframe) then 100.0 else 50.0) * 0.3;
    var score := score + YieldPoints(v, p);
    var score := score + AssetTypePoints(p);
    MinReal(100.0, score)
  }

  // ---------------------------------------------------------------------
  // Reasoning
  // ---------------------------------------------------------------------

  datatype Reason =
    | RiskAligned(tier: int, tolerance: RiskTolerance)
    | TimeframeMatches(timeframe: Timeframe)
    | ExpectedYield(yieldPct: real)
    | Suitable

  /** The reasons `_generate_reasoning` collects, in order; the fallback
      when none applies. */
  function Reasons(v: VaultInfo, p: UserPreferences): (r: seq<Reason>)
    ensures |r| >= 1
    ensures r == [Suitable] <==>
      && MatchRiskTier(v.riskTier, p.riskTolerance) < 80.0
      && !CheckTimeframeMatch(v, p.timeframe)
      && YieldOf(v) <= 0.0
  {
    var risk := if MatchRiskTier(v.riskTier, p.riskTolerance) >= 80.0
                then [RiskAligned(v.riskTier, p.riskTolerance)] else [];
    var time := if CheckTimeframeMatch(v, p.timeframe) then [TimeframeMatches(p.timeframe)] else [];
    var yld := if YieldOf(v) > 0.0 then [ExpectedYield(YieldOf(v))] else [];
    var all := risk + time + yld;
    assert |all| == |risk| + |time| + |yld|;
    if all == [] then [Suitable]
    else
      assert !all[0].Suitable?;
      all
  }

  function DigitChar(d: nat): char
    requires d < 10
  {
    "0123456789"[d]
  }

  function NatToString(n: nat): (s: string)
    ensures |s| > 0
  {
    if n < 10 then [DigitChar(n)] else NatToString(n / 10) + [DigitChar(n % 10)]
  }

  function IntToString(n: int): string
  {
    if n < 0 then "-" + NatToString(-n) else NatToString(n)
  }

  /** The sentence for one reason; `formatYield` renders a yield with two
      decimals (the f-string `:.2f`). */
  function ReasonText(r: Reason, formatYield: real -> string): string
  {
    match r
    case RiskAligned(tier, tolerance) =>
      "Risk tier " + IntToString(tier) + " aligns well with your " + tolerance.LowerName() + " risk tolerance"
    case TimeframeMatches(tf) =>
      "Timeframe matches your " + tf.Value() + "-term investment preference"
    case ExpectedYield(y) =>
      "Expected yield: " + formatYield(y) + "%"
    case Suitable =>
      "This vault may be suitable based on your preferences"
  }

  /** `". ".join(texts)`. */
  function JoinSentences(texts: seq<string>): string
  {
    if |texts| == 0 then ""
    else if |texts| == 1 then texts[0]
    else texts[0] + ". " + JoinSentences(texts[1..])
  }

  /** `_generate_reasoning`: never empty, always ending with a full stop. */
  function GenerateReasoning(v: VaultInfo, p: UserPreferences, formatYield: real -> string): (s: string)
    ensures |s| > 0 && s[|s| - 1] == '.'
  {
    var rs := Reasons(v, p);
    JoinSentences(seq(|rs|, i requires 0 <= i < |rs| => ReasonText(rs[i], formatYield))) + "."
  }

  /** The `VaultRecommendation` built for one registered vault. */
  function Recommend(v: VaultInfo, p: UserPreferences, formatYield: real -> string): (r: Recommendation)
    ensures r.vaultAddress == v.address && r.vaultName == v.name && r.riskTier == v.riskTier
    ensures 0.0 <= r.matchScore <= 100.0
  {
    Recommendation(
      v.address, v.name, MatchScore(v, p), v.riskTier, YieldOf(v),
      CheckTimeframeMatch(v, p.timeframe), GenerateReasoning(v, p, formatYield))
  }

  /** `f` applied to every element, in order. */
  function MapSeq<A, B>(f: A -> B, s: seq<A>): (r: seq<B>)
    ensures |r| == |s|
  {
    if |s| == 0 then [] else MapSeq(f, s[..|s| - 1]) + [f(s[|s| - 1])]
  }

  /** One recommendation per vault, in registration order. */
  function RecommendAll(vaults: seq<VaultInfo>, p: UserPreferences, formatYield: real -> string)
    : seq<Recommendation>
  {
    MapSeq(v => Recommend(v, p, formatYield), vaults)
  }

  // ---------------------------------------------------------------------
  // Ranking: stable sort by descending score, filter, slice
  // ---------------------------------------------------------------------

  ghost predicate SortedDesc(s: seq<Recommendation>)
  {
    forall i, j :: 0 <= i < j < |s| ==> s[i].matchScore >= s[j].matchScore
  }

  /** The recommendations of `s` whose score is exactly `score`, in order. */
  function WithScore(s: seq<Recommendation>, score: real): seq<Recommendation>
  {
    if |s| == 0 then []
    else (if s[0].matchScore == score then [s[0]] else []) + WithScore(s[1..], score)
  }

  /** Places `x` after every element scoring at least as much. */
  function Insert(x: Recommendation, s: seq<Recommendation>): (r: seq<Recommendation>)
    ensures |r| == |s| + 1
  {
    if |s| == 0 then [x]
    else if s[0].matchScore >= x.matchScore then [s[0]] + Insert(x, s[1..])
    else [x] + s
  }

  /** `list.sort(key=score, reverse=True)`, which is stable. */
  function SortByScore(s: seq<Recommendation>): (r: seq<Recommendation>)
    ensures |r| == |s|
  {
    if |s| == 0 then [] else Insert(s[|s| - 1], SortByScore(s[..|s| - 1]))
  }

  /** `[r for r in s if r.match_score >= threshold]`. */
  function AtLeast(s: seq<Recommendation>, threshold: real): (r: seq<Recommendation>)
    ensures |r| <= |s|
    ensures forall i :: 0 <= i < |r| ==> r[i].matchScore >= threshold
  {
    if |s| == 0 then []
    else (if s[0].matchScore >= threshold then [s[0]] else []) + AtLeast(s[1..], threshold)
  }

  /** Python's `s[:n]`: a negative `n` counts from the end. */
  function Slice<T>(s: seq<T>, n: int): (r: seq<T>)
    ensures n >= 0 ==> |r| == if n <= |s| then n else |s|
    ensures n < 0 ==> |r| == if |s| + n >= 0 then |s| + n else 0
    ensures r == s[..|r|]
  {
    if n >= 0 then (if n <= |s| then s[..n] else s)
    else (if |s| + n >= 0 then s[..|s| + n] else [])
  }

  /** The value of `suggest_vaults(user_prefs, max_recommendations)`. */
  function Suggestions(vaults: seq<VaultInfo>, p: UserPreferences, maxRecommendations: int,
                       formatYield: real -> string): (r: seq<Recommendation>)
    ensures |r| <= |vaults|
    ensures maxRecommendations >= 0 ==> |r| <= maxRecommendations
    ensures forall i :: 0 <= i < |r| ==> r[i].matchScore >= 50.0
  {
    Slice(AtLeast(SortByScore(RecommendAll(vaults, p, formatYield)), 50.0), maxRecommendations)
  }

  /** The loop of `suggest_vaults` that builds one recommendation per
      registered vault, in registration order. */
  method RecommendEach(vaults: seq<VaultInfo>, p: UserPreferences, formatYield: real -> string)
    returns (recommendations: seq<Recommendation>)
    ensures recommendations == RecommendAll(vaults, p, formatYield)
  {
    recommendations := [];
    var i := 0;
    while i < |vaults|
      invariant 0 <= i <= |vaults|
      invariant recommendations == RecommendAll(vaults[..i], p, formatYield)
    {
      assert vaults[..i + 1][..i] == vaults[..i];
      recommendations := recommendations + [Recommend(vaults[i], p, formatYield)];
      i := i + 1;
    }
    assert vaults[..i] == vaults;
  }

  // ---------------------------------------------------------------------
  // PraxosAIAgent
  // ---------------------------------------------------------------------

  class Agent {
    var registry: seq<VaultInfo>

    constructor ()
      ensures registry == []
    {
      registry := [];
    }

    /** `register_vault`: appends, keeping registration order. */
    method RegisterVault(v: VaultInfo)
      modifies this
      ensures registry == old(registry) + [v]
    {
      registry := registry + [v];
    }

    /** `suggest_vaults`. */
    method SuggestVaults(p: UserPreferences, maxRecommendations: int, formatYield: real -> string)
      returns (recommendations: seq<Recommendation>)
      ensures recommendations == Suggestions(registry, p, maxRecommendations, formatYield)
      ensures SortedDesc(recommendations)
      ensures forall r :: r in recommendations ==> r.matchScore >= 50.0
      ensures maxRecommendations >= 0 ==> |recommendations| <= maxRecommendations
      ensures forall r :: r in recommendations ==>
        exists i :: 0 <= i < |registry| && r == Recommend(registry[i], p, formatYield)
    {
      recommendations := RecommendEach(registry, p, formatYield);
      recommendations := SortByScore(recommendations);
      recommendations := AtLeast(recommendations, 50.0);
      recommendations := Slice(recommendations, maxRecommendations);
      SuggestionsRanked(registry, p, maxRecommendations, formatYield);
      SuggestionsFromRegistry(registry, p, maxRecommendations, formatYield);
    }
  }

  // ---------------------------------------------------------------------
  // Properties
  // ---------------------------------------------------------------------

  /** The risk score depends only on the distance between tiers, falls as
      the distance grows, and is the same above and below the tolerance. */
  lemma RiskTierByDistance(t1: int, t2: int, u: RiskTolerance)
    ensures Abs(t1 - u.Value()) <= Abs(t2 - u.Value()) ==> MatchRiskTier(t1, u) >= MatchRiskTier(t2, u)
    ensures Abs(t1 - u.Value()) == Abs(t2 - u.Value()) ==> MatchRiskTier(t1, u) == MatchRiskTier(t2, u)
    ensures MatchRiskTier(t1, u) == 100.0 <==> t1 == u.Value()
  {
  }

  /** Every duration falls in exactly one timeframe. */
  lemma TimeframesPartition(v: VaultInfo)
    ensures CheckTimeframeMatch(v, ShortTerm) || CheckTimeframeMatch(v, MediumTerm) || CheckTimeframeMatch(v, LongTerm)
    ensures !(CheckTimeframeMatch(v, ShortTerm) && CheckTimeframeMatch(v, MediumTerm))
    ensures !(CheckTimeframeMatch(v, ShortTerm) && CheckTimeframeMatch(v, LongTerm))
    ensures !(CheckTimeframeMatch(v, MediumTerm) && CheckTimeframeMatch(v, LongTerm))
  {
  }

  lemma {:induction false} InsertPermutes(x: Recommendation, s: seq<Recommendation>)
    ensures multiset(Insert(x, s)) == multiset(s) + multiset{x}
    decreases |s|
  {
    if |s| > 0 && s[0].matchScore >= x.matchScore {
      InsertPermutes(x, s[1..]);
      assert s == [s[0]] + s[1..];
    }
  }

  /** Inserting keeps an upper bound on the scores. */
  lemma {:induction false} InsertBounded(x: Recommendation, s: seq<Recommendation>, bound: real)
    requires x.matchScore <= bound
    requires forall i :: 0 <= i < |s| ==> s[i].matchScore <= bound
    ensures forall i :: 0 <= i < |Insert(x, s)| ==> Insert(x, s)[i].matchScore <= bound
    decreases |s|
  {
    if |s| > 0 && s[0].matchScore >= x.matchScore {
      InsertBounded(x, s[1..], bound);
    }
  }

  lemma {:induction false} InsertSorted(x: Recommendation, s: seq<Recommendation>)
    requires SortedDesc(s)
    ensures SortedDesc(Insert(x, s))
    decreases |s|
  {
    if |s| > 0 && s[0].matchScore >= x.matchScore {
      var tail := s[1..];
      assert SortedDesc(tail) by {
        forall i, j | 0 <= i < j < |tail|
          ensures tail[i].matchScore >= tail[j].matchScore
        {
          assert tail[i] == s[i + 1] && tail[j] == s[j + 1];
        }
      }
      InsertSorted(x, tail);
      assert forall i :: 0 <= i < |tail| ==> tail[i].matchScore <= s[0].matchScore by {
        forall i | 0 <= i < |tail|
          ensures tail[i].matchScore <= s[0].matchScore
        {
          assert tail[i] == s[i + 1];
        }
      }
      InsertBounded(x, tail, s[0].matchScore);
      var t := Insert(x, tail);
      assert Insert(x, s) == [s[0]] + t;
    } else if |s| > 0 {
      assert Insert(x, s) == [x] + s;
    }
  }

  lemma {:induction false} SortSorted(s: seq<Recommendation>)
    ensures SortedDesc(SortByScore(s))
    decreases |s|
  {
    if |s| > 0 {
      var init := s[..|s| - 1];
      SortSorted(init);
      InsertSorted(s[|s| - 1], SortByScore(init));
    }
  }

  /** The sort returns a rearrangement of its input. */
  lemma {:induction false} SortPermutes(s: seq<Recommendation>)
    ensures multiset(SortByScore(s)) == multiset(s)
    decreases |s|
  {
    if |s| > 0 {
      var init, last := s[..|s| - 1], s[|s| - 1];
      var sorted := SortByScore(init);
      assert SortByScore(s) == Insert(last, sorted);
      SortPermutes(init);
      InsertPermutes(last, sorted);
      assert s == init + [last];
      assert multiset(s) == multiset(init) + multiset{last};
    }
  }

  lemma {:induction false} WithScoreConcat(a: seq<Recommendation>, b: seq<Recommendation>, score: real)
    ensures WithScore(a + b, score) == WithScore(a, score) + WithScore(b, score)
    decreases |a|
  {
    if |a| > 0 {
      assert (a + b)[0] == a[0];
      assert (a + b)[1..] == a[1..] + b;
      WithScoreConcat(a[1..], b, score);
    } else {
      assert a + b == b;
    }
  }

  lemma {:induction false} WithScoreNone(s: seq<Recommendation>, score: real)
    requires forall i :: 0 <= i < |s| ==> s[i].matchScore < score
    ensures WithScore(s, score) == []
    decreases |s|
  {
    if |s| > 0 {
      WithScoreNone(s[1..], score);
    }
  }

  lemma {:induction false} InsertStable(x: Recommendation, s: seq<Recommendation>, score: real)
    requires SortedDesc(s)
    ensures WithScore(Insert(x, s), score) == WithScore(s, score) + (if x.matchScore == score then [x] else [])
    decreases |s|
  {
    var tail := if x.matchScore == score then [x] else [];
    if |s| == 0 {
      assert Insert(x, s) == [x] + [];
    } else if s[0].matchScore >= x.matchScore {
      assert SortedDesc(s[1..]) by {
        forall i, j | 0 <= i < j < |s[1..]|
          ensures s[1..][i].matchScore >= s[1..][j].matchScore
        {
          assert s[1..][i] == s[i + 1] && s[1..][j] == s[j + 1];
        }
      }
      InsertStable(x, s[1..], score);
      assert Insert(x, s) == [s[0]] + Insert(x, s[1..]);
      WithScoreConcat([s[0]], Insert(x, s[1..]), score);
      assert s == [s[0]] + s[1..];
      WithScoreConcat([s[0]], s[1..], score);
    } else {
      assert Insert(x, s) == [x] + s;
      WithScoreConcat([x], s, score);
      assert WithScore([x], score) == tail + WithScore([], score);
      if x.matchScore == score {
        assert forall i :: 0 <= i < |s| ==> s[i].matchScore < score by {
          forall i | 0 <= i < |s|
            ensures s[i].matchScore < score
          {
            if i > 0 { assert s[0].matchScore >= s[i].matchScore; }
          }
        }
        WithScoreNone(s, score);
      }
    }
  }

  /** The sort is stable: recommendations with equal scores keep the order
      they had before sorting. */
  lemma {:induction false} SortStable(s: seq<Recommendation>, score: real)
    ensures WithScore(SortByScore(s), score) == WithScore(s, score)
    decreases |s|
  {
    if |s| > 0 {
      var init, last := s[..|s| - 1], s[|s| - 1];
      SortStable(init, score);
      SortSorted(init);
      InsertStable(last, SortByScore(init), score);
      assert SortByScore(s) == Insert(last, SortByScore(init));
      assert s == init + [last];
      WithScoreConcat(init, [last], score);
      assert WithScore([last], score) == (if last.matchScore == score then [last] else []) + WithScore([], score);
    }
  }

  /** The filter keeps exactly the entries scoring at least the threshold. */
  lemma {:induction false} AtLeastMembers(s: seq<Recommendation>, threshold: real)
    ensures forall x :: x in AtLeast(s, threshold) <==> x in s && x.matchScore >= threshold
    decreases |s|
  {
    if |s| > 0 {
      AtLeastMembers(s[1..], threshold);
      var head := if s[0].matchScore >= threshold then [s[0]] else [];
      assert AtLeast(s, threshold) == head + AtLeast(s[1..], threshold);
      assert s == [s[0]] + s[1..];
    }
  }

  lemma {:induction false} AtLeastSorted(s: seq<Recommendation>, threshold: real)
    requires SortedDesc(s)
    ensures SortedDesc(AtLeast(s, threshold))
    decreases |s|
  {
    if |s| > 0 {
      var tail := s[1..];
      assert SortedDesc(tail) by {
        forall i, j | 0 <= i < j < |tail|
          ensures tail[i].matchScore >= tail[j].matchScore
        {
          assert tail[i] == s[i + 1] && tail[j] == s[j + 1];
        }
      }
      AtLeastSorted(tail, threshold);
      AtLeastMembers(tail, threshold);
      var rest := AtLeast(tail, threshold);
      if s[0].matchScore >= threshold {
        var r := AtLeast(s, threshold);
        assert r == [s[0]] + rest;
        forall j | 0 <= j < |rest|
          ensures s[0].matchScore >= rest[j].matchScore
        {
          assert rest[j] in tail;
          var k :| 0 <= k < |tail| && tail[k] == rest[j];
          assert tail[k] == s[k + 1];
        }
      } else {
        assert AtLeast(s, threshold) == rest;
      }
    }
  }

  /** The filter keeps, in order, every entry with a score above the
      threshold. */
  lemma {:induction false} AtLeastStable(s: seq<Recommendation>, threshold: real, score: real)
    requires score >= threshold
    ensures WithScore(AtLeast(s, threshold), score) == WithScore(s, score)
    decreases |s|
  {
    if |s| > 0 {
      AtLeastStable(s[1..], threshold, score);
      var head := if s[0].matchScore >= threshold then [s[0]] else [];
      assert AtLeast(s, threshold) == head + AtLeast(s[1..], threshold);
      WithScoreConcat(head, AtLeast(s[1..], threshold), score);
    }
  }

  /** A prefix keeps, for every score, a prefix of the recommendations with
      that score. */
  lemma WithScorePrefix(s: seq<Recommendation>, k: nat, score: real)
    requires k <= |s|
    ensures WithScore(s[..k], score) <= WithScore(s, score)
  {
    assert s == s[..k] + s[k..];
    WithScoreConcat(s[..k], s[k..], score);
  }

  /** Ranking keeps exactly the recommendations scoring at least 50,
      sorted by non-increasing score. */
  lemma RankedMembers(all: seq<Recommendation>)
    ensures SortedDesc(AtLeast(SortByScore(all), 50.0))
    ensures forall x :: x in AtLeast(SortByScore(all), 50.0) <==> x in all && x.matchScore >= 50.0
  {
    var sorted := SortByScore(all);
    SortSorted(all);
    SortPermutes(all);
    AtLeastMembers(sorted, 50.0);
    AtLeastSorted(sorted, 50.0);
    forall x | x in sorted
      ensures x in all
    {
      assert x in multiset(sorted);
    }
    forall x | x in all
      ensures x in sorted
    {
      assert x in multiset(all);
    }
  }

  /** Among equal scores, ranking keeps the original order. */
  lemma RankedStable(all: seq<Recommendation>, score: real)
    requires score >= 50.0
    ensures WithScore(AtLeast(SortByScore(all), 50.0), score) == WithScore(all, score)
  {
    SortStable(all, score);
    AtLeastStable(SortByScore(all), 50.0, score);
  }

  /** What a cut of the ranking holds, given the ranking's own properties. */
  lemma {:induction false} CutOfRanking(all: seq<Recommendation>, ranked: seq<Recommendation>, n: int)
    requires SortedDesc(ranked)
    requires forall x :: x in ranked <==> x in all && x.matchScore >= 50.0
    requires forall score :: score >= 50.0 ==> WithScore(ranked, score) == WithScore(all, score)
    ensures var r := Slice(ranked, n);
      && SortedDesc(r)
      && (forall x :: x in r ==> x in all && x.matchScore >= 50.0)
      && (n >= 0 ==> |r| <= n)
      && (forall i, j :: 0 <= i < |r| <= j < |ranked| ==> r[i].matchScore >= ranked[j].matchScore)
      && (forall score :: score >= 50.0 ==> WithScore(r, score) <= WithScore(all, score))
  {
    var r := Slice(ranked, n);
    forall x | x in r
      ensures x in ranked
    {
      var i :| 0 <= i < |r| && r[i] == x;
      assert ranked[i] == x;
    }
    forall score | score >= 50.0
      ensures WithScore(r, score) <= WithScore(all, score)
    {
      WithScorePrefix(ranked, |r|, score);
    }
  }

  /** What `suggest_vaults` returns: sorted by non-increasing score, only
      scores of at least 50, no more than asked for, each one built from a
      registered vault, exactly the best-scoring ones, and, among equal
      scores, in registration order. */
  lemma SuggestionsRanked(vaults: seq<VaultInfo>, p: UserPreferences, n: int, formatYield: real -> string)
    ensures var all := RecommendAll(vaults, p, formatYield);
      var ranked := AtLeast(SortByScore(all), 50.0);
      var r := Suggestions(vaults, p, n, formatYield);
      && (forall x :: x in ranked <==> x in all && x.matchScore >= 50.0)
      && r == ranked[..|r|]
      && SortedDesc(r)
      && (forall x :: x in r ==> x in all && x.matchScore >= 50.0)
      && (n >= 0 ==> |r| <= n)
      && (forall i, j :: 0 <= i < |r| <= j < |ranked| ==> r[i].matchScore >= ranked[j].matchScore)
      && (forall score :: score >= 50.0 ==> WithScore(r, score) <= WithScore(all, score))
  {
    var all := RecommendAll(vaults, p, formatYield);
    RankedMembers(all);
    forall score | score >= 50.0
      ensures WithScore(AtLeast(SortByScore(all), 50.0), score) == WithScore(all, score)
    {
      RankedStable(all, score);
    }
    CutOfRanking(all, AtLeast(SortByScore(all), 50.0), n);
  }

  /** Every suggestion is the recommendation of some registered vault. */
  lemma SuggestionsFromRegistry(vaults: seq<VaultInfo>, p: UserPreferences, n: int, formatYield: real -> string)
    ensures forall r :: r in Suggestions(vaults, p, n, formatYield) ==>
      exists i :: 0 <= i < |vaults| && r == Recommend(vaults[i], p, formatYield)
  {
    var all := RecommendAll(vaults, p, formatYield);
    SuggestionsRanked(vaults, p, n, formatYield);
    MapSeqAt(v => Recommend(v, p, formatYield), vaults);
    forall r | r in Suggestions(vaults, p, n, formatYield)
      ensures exists i :: 0 <= i < |vaults| && r == Recommend(vaults[i], p, formatYield)
    {
      var k :| 0 <= k < |all| && all[k] == r;
      assert r == Recommend(vaults[k], p, formatYield);
    }
  }

  lemma {:induction false} MapSeqAt<A, B>(f: A -> B, s: seq<A>)
    ensures forall k :: 0 <= k < |s| ==> MapSeq(f, s)[k] == f(s[k])
    decreases |s|
  {
    if |s| > 0 {
      var init := s[..|s| - 1];
      MapSeqAt(f, init);
      assert forall k :: 0 <= k < |init| ==> init[k] == s[k];
    }
  }
}
