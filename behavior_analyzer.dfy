/** `analyzeTraderBehavior` of market-mirror/lib/behavior-analyzer.ts: one pass over a session's trades. */
module BehaviorAnalyzer {
  import opened Types
  import opened Seqs
  import Text
  import Numerals

  // ---------------------------------------------------------------------------
  // Partition by the pre-assigned label

  predicate IsEmotional(t: Trade) { t.kind == Emotional }

  predicate IsRational(t: Trade) { t.kind == Rational }

  function EmotionalTrades(trades: seq<Trade>): (r: seq<Trade>)
    ensures |r| <= |trades|
    ensures forall i :: 0 <= i < |r| ==> r[i].kind == Emotional
  {
    Filter(trades, IsEmotional)
  }

  function RationalTrades(trades: seq<Trade>): (r: seq<Trade>)
    ensures |r| <= |trades|
    ensures forall i :: 0 <= i < |r| ==> r[i].kind == Rational
  {
    Filter(trades, IsRational)
  }

  /** The two subsets are the order-preserving filters by label, and together they are exactly `trades`. */
  lemma PartitionTrades(trades: seq<Trade>)
    ensures forall t :: t in EmotionalTrades(trades) <==> t in trades && t.kind == Emotional
    ensures forall t :: t in RationalTrades(trades) <==> t in trades && t.kind == Rational
    ensures |EmotionalTrades(trades)| + |RationalTrades(trades)| == |trades|
    ensures multiset(EmotionalTrades(trades)) + multiset(RationalTrades(trades)) == multiset(trades)
  {
    forall t ensures t in EmotionalTrades(trades) <==> t in trades && t.kind == Emotional {
      FilterMembership(trades, IsEmotional, t);
    }
    forall t ensures t in RationalTrades(trades) <==> t in trades && t.kind == Rational {
      FilterMembership(trades, IsRational, t);
    }
    FilterComplement(trades, IsEmotional, IsRational);
  }

  // ---------------------------------------------------------------------------
  // Scores

  /** What a trade adds to the emotional loss sum: `Math.abs(profit)` when the profit is negative. */
  function EmotionalLoss(t: Trade): real
  {
    if t.profit < 0.0 then -t.profit else 0.0
  }

  /** What a trade adds to the rational gain sum: the profit when it is positive. */
  function RationalGain(t: Trade): real
  {
    if t.profit > 0.0 then t.profit else 0.0
  }

  /** `ts.reduce((sum, t) => sum + f(t), 0)`. */
  function SumOf(ts: seq<Trade>, f: Trade -> real): real
  {
    if ts == [] then 0.0 else f(ts[0]) + SumOf(ts[1..], f)
  }

  lemma {:induction false} SumOfNonNegative(ts: seq<Trade>, f: Trade -> real)
    requires forall t :: f(t) >= 0.0
    ensures SumOf(ts, f) >= 0.0
  {
    if ts != [] {
      SumOfNonNegative(ts[1..], f);
    }
  }

  /** `total / count || 0`: an empty subset divides 0 by 0, and the resulting NaN is replaced by 0. */
  function AverageOrZero(total: real, count: nat): (r: real)
    ensures total >= 0.0 ==> r >= 0.0
    ensures count > 0 ==> r * count as real == total
  {
    if count == 0 then 0.0 else total / count as real
  }

  function Min(a: real, b: real): real
  {
    if a <= b then a else b
  }

  /** The emotional score: the emotional share in percent plus a tenth of the average emotional loss, capped at 100. */
  function EmotionalScore(trades: seq<Trade>): (r: real)
    requires |trades| > 0
    ensures 0.0 <= r <= 100.0
    ensures EmotionalTrades(trades) == [] ==> r == 0.0
    ensures |EmotionalTrades(trades)| == |trades| ==> r == 100.0
    ensures r >= Min(100.0, (|EmotionalTrades(trades)| as real / |trades| as real) * 100.0)
  {
    var e := EmotionalTrades(trades);
    var ratio := |e| as real / |trades| as real;
    SumOfNonNegative(e, EmotionalLoss);
    var avgLoss := AverageOrZero(SumOf(e, EmotionalLoss), |e|);
    Min(100.0, ratio * 100.0 + avgLoss / 10.0)
  }

  /** The rational score: the rational share in percent plus a tenth of the average rational gain, capped at 100. */
  function RationalScore(trades: seq<Trade>): (r: real)
    requires |trades| > 0
    ensures 0.0 <= r <= 100.0
    ensures RationalTrades(trades) == [] ==> r == 0.0
    ensures |RationalTrades(trades)| == |trades| ==> r == 100.0
    ensures r >= Min(100.0, (|RationalTrades(trades)| as real / |trades| as real) * 100.0)
  {
    var q := RationalTrades(trades);
    var ratio := |q| as real / |trades| as real;
    SumOfNonNegative(q, RationalGain);
    var avgGain := AverageOrZero(SumOf(q, RationalGain), |q|);
    Min(100.0, ratio * 100.0 + avgGain / 10.0)
  }

  /** The two shares add up to the whole session, so the two scores together are never below 100. */
  lemma ScoresCoverSession(trades: seq<Trade>)
    requires |trades| > 0
    ensures EmotionalScore(trades) + RationalScore(trades) >= 100.0
  {
    PartitionTrades(trades);
    Shares(|EmotionalTrades(trades)| as real, |RationalTrades(trades)| as real, |trades| as real);
  }

  lemma Shares(e: real, q: real, n: real)
    requires 0.0 <= e && 0.0 <= q && e + q == n && n > 0.0
    ensures Min(100.0, (e / n) * 100.0) + Min(100.0, (q / n) * 100.0) >= 100.0
  {
    assert e / n + q / n == (e + q) / n == 1.0;
    assert (e / n) * 100.0 + (q / n) * 100.0 == 100.0;
    assert e / n <= 1.0 && q / n <= 1.0;
  }

  // ---------------------------------------------------------------------------
  // Bias markers

  /** The three counters of the `biases` object. */
  datatype BiasCounts = BiasCounts(overtrading: nat, lossAversion: nat, revenge: nat)

  predicate SignalsOvertrading(reason: string)
  {
    Text.Includes(Text.ToLower(reason), "fomo") || Text.Includes(Text.ToLower(reason), "chasing")
  }

  predicate SignalsLossAversion(reason: string)
  {
    Text.Includes(Text.ToLower(reason), "panic") || Text.Includes(Text.ToLower(reason), "fear")
  }

  predicate SignalsRevenge(reason: string)
  {
    Text.Includes(Text.ToLower(reason), "revenge")
  }

  /** One trade's contribution: each counter goes up by at most one, independently of the others. */
  function Bump(c: BiasCounts, t: Trade): (r: BiasCounts)
    ensures c.overtrading <= r.overtrading <= c.overtrading + 1
    ensures c.lossAversion <= r.lossAversion <= c.lossAversion + 1
    ensures c.revenge <= r.revenge <= c.revenge + 1
  {
    BiasCounts(
      c.overtrading + (if SignalsOvertrading(t.reason) then 1 else 0),
      c.lossAversion + (if SignalsLossAversion(t.reason) then 1 else 0),
      c.revenge + (if SignalsRevenge(t.reason) then 1 else 0))
  }

  /** The counters after visiting `ts` in order, starting from all zero. */
  function Tally(ts: seq<Trade>): (r: BiasCounts)
    ensures r.overtrading <= |ts| && r.lossAversion <= |ts| && r.revenge <= |ts|
  {
    if ts == [] then BiasCounts(0, 0, 0) else Bump(Tally(ts[..|ts| - 1]), ts[|ts| - 1])
  }

  /** The `forEach` loop over the emotional trades that increments the counters. */
  method CountBiases(emotionalTrades: seq<Trade>) returns (biases: BiasCounts)
    ensures biases == Tally(emotionalTrades)
  {
    biases := BiasCounts(0, 0, 0);
    var i := 0;
    while i < |emotionalTrades|
      invariant 0 <= i <= |emotionalTrades|
      invariant biases == Tally(emotionalTrades[..i])
    {
      var trade := emotionalTrades[i];
      assert emotionalTrades[..i + 1][..i] == emotionalTrades[..i];
      if SignalsOvertrading(trade.reason) {
        biases := biases.(overtrading := biases.overtrading + 1);
      }
      if SignalsLossAversion(trade.reason) {
        biases := biases.(lossAversion := biases.lossAversion + 1);
      }
      if SignalsRevenge(trade.reason) {
        biases := biases.(revenge := biases.revenge + 1);
      }
      i := i + 1;
    }
    assert emotionalTrades[..i] == emotionalTrades;
  }

  /** Each counter is the number of trades whose reason carries one of its markers; so none exceeds |ts|. */
  lemma {:induction false} TallyCountsMarkedTrades(ts: seq<Trade>)
    ensures Tally(ts).overtrading == |Filter(ts, (t: Trade) => SignalsOvertrading(t.reason))|
    ensures Tally(ts).lossAversion == |Filter(ts, (t: Trade) => SignalsLossAversion(t.reason))|
    ensures Tally(ts).revenge == |Filter(ts, (t: Trade) => SignalsRevenge(t.reason))|
    ensures Tally(ts).overtrading <= |ts| && Tally(ts).lossAversion <= |ts| && Tally(ts).revenge <= |ts|
  {
    if ts != [] {
      var init, last := ts[..|ts| - 1], ts[|ts| - 1];
      assert ts == init + [last];
      TallyCountsMarkedTrades(init);
      FilterSnoc(init, last, (t: Trade) => SignalsOvertrading(t.reason));
      FilterSnoc(init, last, (t: Trade) => SignalsLossAversion(t.reason));
      FilterSnoc(init, last, (t: Trade) => SignalsRevenge(t.reason));
    }
  }

  // ---------------------------------------------------------------------------
  // Dominant bias

  function Max3(a: nat, b: nat, c: nat): (m: nat)
    ensures m >= a && m >= b && m >= c
    ensures m == a || m == b || m == c
  {
    if a >= b && a >= c then a else if b >= c then b else c
  }

  function CountOf(c: BiasCounts, b: Bias): nat
    requires b != Mixed
  {
    match b
    case Overtrading => c.overtrading
    case LossAversion => c.lossAversion
    case Revenge => c.revenge
  }

  /**
   * The if-chain that picks the session's bias: `mixed` exactly when the three counters are equal
   * (all zero included); otherwise the first counter, in the order overtrading, loss aversion,
   * revenge, that reaches the maximum, so that a two-way tie at the top goes to the earlier one.
   */
  function DominantBias(c: BiasCounts): (b: Bias)
    ensures b == Mixed <==> c.overtrading == c.lossAversion == c.revenge
    ensures b != Mixed ==> CountOf(c, b) == Max3(c.overtrading, c.lossAversion, c.revenge)
    ensures b == LossAversion ==> c.overtrading < c.lossAversion
    ensures b == Revenge ==> c.overtrading < c.revenge && c.lossAversion < c.revenge
  {
    var maxBias := Max3(c.overtrading, c.lossAversion, c.revenge);
    if maxBias == 0 || (c.overtrading == c.lossAversion && c.overtrading == c.revenge) then Mixed
    else if maxBias == c.overtrading then Overtrading
    else if maxBias == c.lossAversion then LossAversion
    else Revenge
  }

  // ---------------------------------------------------------------------------
  // Market condition, duration, summary

  datatype MarketCondition = Bullish | Bearish | Volatile
  {
    function Label(): string
    {
      match this
      case Bullish => "bullish"
      case Bearish => "bearish"
      case Volatile => "volatile"
    }
  }

  function Profit(t: Trade): real { t.profit }

  function TotalProfit(trades: seq<Trade>): real
  {
    SumOf(trades, Profit)
  }

  /** The fixed thresholds on the session's total profit: above 0 is bullish, below -200 bearish. */
  function MarketConditionOf(totalProfit: real): (m: MarketCondition)
    ensures m == Bullish <==> totalProfit > 0.0
    ensures m == Bearish <==> totalProfit < -200.0
    ensures m == Volatile <==> -200.0 <= totalProfit <= 0.0
  {
    if totalProfit > 0.0 then Bullish else if totalProfit < -200.0 then Bearish else Volatile
  }

  /** The total profit is the emotional trades' total plus the rational trades' total. */
  lemma {:induction false} TotalProfitSplits(trades: seq<Trade>)
    ensures TotalProfit(trades) == TotalProfit(EmotionalTrades(trades)) + TotalProfit(RationalTrades(trades))
  {
    if trades != [] {
      var t, rest := trades[0], trades[1..];
      TotalProfitSplits(rest);
      assert trades == [t] + rest;
      if t.kind == Emotional {
        assert EmotionalTrades(trades) == [t] + EmotionalTrades(rest);
        assert RationalTrades(trades) == RationalTrades(rest);
        SumOfCons(t, EmotionalTrades(rest), Profit);
      } else {
        assert EmotionalTrades(trades) == EmotionalTrades(rest);
        assert RationalTrades(trades) == [t] + RationalTrades(rest);
        SumOfCons(t, RationalTrades(rest), Profit);
      }
    }
  }

  lemma SumOfCons(t: Trade, ts: seq<Trade>, f: Trade -> real)
    ensures SumOf([t] + ts, f) == f(t) + SumOf(ts, f)
  {
    assert ([t] + ts)[1..] == ts;
  }

  const EmotionalPart: string := " emotional trades, "
  const RationalPart: string := " rational trades. Bias: "

  /** The session summary line: the two counts in decimal and the bias label, in a fixed template. */
  function Summary(emotional: nat, rational: nat, bias: Bias): (r: string)
    ensures Numerals.ToDigits(emotional, 10) + EmotionalPart <= r
    ensures |bias.Name()| <= |r| && r[|r| - |bias.Name()|..] == bias.Name()
  {
    Numerals.ToDigits(emotional, 10) + (EmotionalPart + (Numerals.ToDigits(rational, 10) + (RationalPart + bias.Name())))
  }

  datatype SummaryFields = SummaryFields(emotional: nat, rational: nat, bias: Bias)

  /** Reads a leading decimal number, returning it with the text that follows. */
  function ReadNat(s: string): Option<(nat, string)>
  {
    var k := Numerals.LeadingDigits(s, 10);
    if k == 0 then None else Some((Numerals.ValueOf(s[..k], 10), s[k..]))
  }

  function StripPrefix(s: string, p: string): Option<string>
  {
    if |p| <= |s| && s[..|p|] == p then Some(s[|p|..]) else None
  }

  lemma PrefixStrips(p: string, rest: string)
    ensures StripPrefix(p + rest, p) == Some(rest)
  {
    assert (p + rest)[..|p|] == p;
    assert (p + rest)[|p|..] == rest;
  }

  /** Reads a summary line back into its three fields; `None` for text that does not follow the template. */
  function ParseSummary(s: string): Option<SummaryFields>
  {
    match ReadNat(s)
    case None => None
    case Some((e, s1)) =>
      match StripPrefix(s1, EmotionalPart)
      case None => None
      case Some(s2) =>
        match ReadNat(s2)
        case None => None
        case Some((r, s3)) =>
          match StripPrefix(s3, RationalPart)
          case None => None
          case Some(s4) =>
            match BiasFromName(s4)
            case None => None
            case Some(b) => Some(SummaryFields(e, r, b))
  }

  /** A decimal numeral followed by text that does not start with a digit is read back exactly. */
  lemma ReadNatOfNumeral(n: nat, rest: string)
    requires rest == [] || !Numerals.IsDigit(rest[0], 10)
    ensures ReadNat(Numerals.ToDigits(n, 10) + rest) == Some((n, rest))
  {
    var d := Numerals.ToDigits(n, 10);
    Numerals.LeadingDigitsOfNumeral(n, 10, rest);
    Numerals.ValueOfToDigits(n, 10);
    assert (d + rest)[..|d|] == d;
    assert (d + rest)[|d|..] == rest;
  }

  /** The summary names the two counts and the bias unambiguously: it parses back to them. */
  lemma SummaryRoundTrip(emotional: nat, rational: nat, bias: Bias)
    ensures ParseSummary(Summary(emotional, rational, bias)) == Some(SummaryFields(emotional, rational, bias))
  {
    var d1, d2 := Numerals.ToDigits(emotional, 10), Numerals.ToDigits(rational, 10);
    var tail2 := RationalPart + bias.Name();
    var tail1 := EmotionalPart + (d2 + tail2);
    ReadNatOfNumeral(emotional, tail1);
    PrefixStrips(EmotionalPart, d2 + tail2);
    ReadNatOfNumeral(rational, tail2);
    PrefixStrips(RationalPart, bias.Name());
    BiasNameRoundTrip(bias);
  }

  // ---------------------------------------------------------------------------
  // The whole analysis

  datatype AnalysisResult = AnalysisResult(
    emotionalScore: real,
    rationalScore: real,
    dominantBias: Bias,
    emotionalTrades: seq<Trade>,
    rationalTrades: seq<Trade>,
    marketCondition: MarketCondition,
    durationMinutes: nat,
    sessionNumber: nat,
    summary: string)

  /** `analyzeTraderBehavior`; the source divides by the number of trades, so a session has at least one. */
  method AnalyzeTraderBehavior(trades: seq<Trade>) returns (r: AnalysisResult)
    requires |trades| > 0
    ensures r.emotionalTrades == EmotionalTrades(trades) && r.rationalTrades == RationalTrades(trades)
    ensures |r.emotionalTrades| + |r.rationalTrades| == |trades|
    ensures 0.0 <= r.emotionalScore <= 100.0 && 0.0 <= r.rationalScore <= 100.0
    ensures r.emotionalTrades == [] ==> r.emotionalScore == 0.0
    ensures r.rationalTrades == [] ==> r.rationalScore == 0.0
    ensures r.emotionalScore == EmotionalScore(trades) && r.rationalScore == RationalScore(trades)
    ensures r.dominantBias == DominantBias(Tally(r.emotionalTrades))
    ensures r.marketCondition == MarketConditionOf(TotalProfit(trades))
    ensures r.durationMinutes == 5 * |trades| && r.sessionNumber == 1
    ensures r.summary == Summary(|r.emotionalTrades|, |r.rationalTrades|, r.dominantBias)
    ensures ParseSummary(r.summary) == Some(SummaryFields(|r.emotionalTrades|, |r.rationalTrades|, r.dominantBias))
  {
    var emotionalTrades := EmotionalTrades(trades);
    var rationalTrades := RationalTrades(trades);
    PartitionTrades(trades);

    var biases := CountBiases(emotionalTrades);
    var dominantBias := DominantBias(biases);

    var marketCondition := MarketConditionOf(TotalProfit(trades));
    var durationMinutes := |trades| * 5;
    var summary := Summary(|emotionalTrades|, |rationalTrades|, dominantBias);
    SummaryRoundTrip(|emotionalTrades|, |rationalTrades|, dominantBias);

    r := AnalysisResult(
      EmotionalScore(trades), RationalScore(trades), dominantBias,
      emotionalTrades, rationalTrades, marketCondition, durationMinutes, 1, summary);
  }

  // ---------------------------------------------------------------------------
  // A worked session

  /**
   * Two emotional trades whose reasons are "FOMO" and "Panic" and two profitable rational trades:
   * overtrading and loss aversion are tied at one each, so the first of them, overtrading, is the
   * dominant bias; the total profit of 280 makes the session bullish.
   */
  lemma ExampleSession()
    ensures var trades := [
        Trade("09:30", Buy, "FOMO", -120.0, Emotional, "TSLA"),
        Trade("09:45", Sell, "Panic", -80.0, Emotional, "TSLA"),
        Trade("10:00", Buy, "Plan", 300.0, Rational, "AAPL"),
        Trade("10:30", Sell, "Target", 180.0, Rational, "AAPL")];
      && |EmotionalTrades(trades)| == 2 && |RationalTrades(trades)| == 2
      && Tally(EmotionalTrades(trades)) == BiasCounts(1, 1, 0)
      && DominantBias(Tally(EmotionalTrades(trades))) == Overtrading
      && TotalProfit(trades) == 280.0
      && MarketConditionOf(TotalProfit(trades)) == Bullish
  {
    var fomo := Trade("09:30", Buy, "FOMO", -120.0, Emotional, "TSLA");
    var panic := Trade("09:45", Sell, "Panic", -80.0, Emotional, "TSLA");
    var plan := Trade("10:00", Buy, "Plan", 300.0, Rational, "AAPL");
    var target := Trade("10:30", Sell, "Target", 180.0, Rational, "AAPL");
    var trades := [fomo, panic, plan, target];
    SplitByKind(fomo, panic, plan, target);
    PartitionTrades(trades);
    FomoMarkers();
    PanicMarkers();
    TallyTwo(fomo, panic);
  }

  /** Two emotional trades followed by two rational ones split into the first two and the last two. */
  lemma SplitByKind(e1: Trade, e2: Trade, r1: Trade, r2: Trade)
    requires e1.kind == Emotional && e2.kind == Emotional && r1.kind == Rational && r2.kind == Rational
    ensures EmotionalTrades([e1, e2, r1, r2]) == [e1, e2]
  {
    assert [r2][1..] == [] && [r1, r2][1..] == [r2];
    assert [e2, r1, r2][1..] == [r1, r2] && [e1, e2, r1, r2][1..] == [e2, r1, r2];
    assert Filter([r2], IsEmotional) == [];
    assert Filter([r1, r2], IsEmotional) == [];
    assert Filter([e2, r1, r2], IsEmotional) == [e2];
  }

  /** A trade signalling only overtrading followed by one signalling only loss aversion tallies (1, 1, 0). */
  lemma TallyTwo(a: Trade, b: Trade)
    requires SignalsOvertrading(a.reason) && !SignalsLossAversion(a.reason) && !SignalsRevenge(a.reason)
    requires !SignalsOvertrading(b.reason) && SignalsLossAversion(b.reason) && !SignalsRevenge(b.reason)
    ensures Tally([a, b]) == BiasCounts(1, 1, 0)
  {
    assert [a, b][..1] == [a] && [a][..0] == [];
    assert Tally([a]) == BiasCounts(1, 0, 0);
  }

  lemma FomoMarkers()
    ensures SignalsOvertrading("FOMO") && !SignalsLossAversion("FOMO") && !SignalsRevenge("FOMO")
  {
    assert Text.ToLower("FOMO") == "fomo";
    Text.IncludesAt("fomo", "fomo", 0);
    assert !Text.Includes("fomo", "fear") by {
      forall i: nat | i <= 4 ensures !Text.OccursAt("fomo", "fear", i) {
        if i == 0 { assert "fomo"[1] != "fear"[1]; }
      }
    }
  }

  lemma PanicMarkers()
    ensures !SignalsOvertrading("Panic") && SignalsLossAversion("Panic") && !SignalsRevenge("Panic")
  {
    assert Text.ToLower("Panic") == "panic";
    Text.IncludesAt("panic", "panic", 0);
    assert !Text.Includes("panic", "fomo") by {
      forall i: nat | i <= 5 ensures !Text.OccursAt("panic", "fomo", i) {
        if i == 0 { assert "panic"[0] != "fomo"[0]; }
        if i == 1 { assert "panic"[1] != "fomo"[0]; }
      }
    }
  }
}
