/**
  The growth and valuation steps of the NSE Kenya screener: the revenue and
  profit growth figures with the "two of three" growth vote, and the P/E
  based valuation score with its classification. Floating-point
  exponentiation (the CAGR root) is a parameter; `round()` is not modelled.
 */
module NseValuation {
  import opened Common
  import opened PyText

  // ---------------------------------------------------------------------------
  // calculate_growth_metrics

  /** The growth thresholds: 8% revenue and profit CAGR, and cumulative
      operating cash flow at least 0.7 of cumulative profit. */
  const MinRevenueCagrPct := 8.0
  const MinProfitCagrPct := 8.0
  const MinGrowthQualityRatio := 0.7

  datatype Growth = Growth(revenueCagr: Option<real>, profitCagr: Option<real>, qualityRatio: Option<real>,
                           recentRevenueGrowth: Option<real>, recentProfitGrowth: Option<real>,
                           passes: bool, dataYears: nat)

  /** A growth figure that is present and reaches its threshold. */
  predicate Meets(x: Option<real>, threshold: real)
  {
    x.Some? && x.value >= threshold
  }

  /** `criteria_met >= 2`: the number of checks that hold, counted as the
      sum of three booleans. */
  function GrowthVote(revenueCagr: Option<real>, profitCagr: Option<real>, qualityRatio: Option<real>): bool
  {
    (if Meets(revenueCagr, MinRevenueCagrPct) then 1 else 0)
    + (if Meets(profitCagr, MinProfitCagrPct) then 1 else 0)
    + (if Meets(qualityRatio, MinGrowthQualityRatio) then 1 else 0) >= 2
  }

  /** The vote passes exactly when some two of the three checks hold; a
      missing figure is a failed check. */
  lemma GrowthVoteTwoOfThree(revenueCagr: Option<real>, profitCagr: Option<real>, qualityRatio: Option<real>)
    ensures GrowthVote(revenueCagr, profitCagr, qualityRatio) <==>
      || (Meets(revenueCagr, MinRevenueCagrPct) && Meets(profitCagr, MinProfitCagrPct))
      || (Meets(revenueCagr, MinRevenueCagrPct) && Meets(qualityRatio, MinGrowthQualityRatio))
      || (Meets(profitCagr, MinProfitCagrPct) && Meets(qualityRatio, MinGrowthQualityRatio))
    ensures revenueCagr.None? ==>
      (GrowthVote(revenueCagr, profitCagr, qualityRatio) <==>
         Meets(profitCagr, MinProfitCagrPct) && Meets(qualityRatio, MinGrowthQualityRatio))
  {
  }

  /** The compound annual growth of the last min(5, n) values in percent,
      when the first of them is positive. `cagr(start, end, years)` is
      `((end / start) ** (1 / (years - 1)) - 1) * 100`; None from it is the
      complex power of a negative ratio, whose `round()` raises. */
  function CagrPct(series: seq<real>, cagr: (real, real, nat) -> Option<real>): (r: Option<Option<real>>)
    ensures |series| < 2 || Tail(series, Min(5, |series|))[0] <= 0.0 ==> r == Some(None)
    ensures |series| >= 2 && Tail(series, Min(5, |series|))[0] > 0.0 ==>
      var window := Tail(series, Min(5, |series|));
      var v := cagr(window[0], window[|window| - 1], |window|);
      (r.None? <==> v.None?) && (v.Some? ==> r == Some(v))
  {
    if |series| < 2 then Some(None)
    else
      var years := Min(5, |series|);
      var window := Tail(series, years);
      if window[0] > 0.0 then
        match cagr(window[0], window[years - 1], years)
        case Some(v) => Some(Some(v))
        case None => None
      else Some(None)
  }

  function SumOcf(pairs: seq<(real, real)>): real
  {
    if pairs == [] then 0.0 else SumOcf(pairs[..|pairs| - 1]) + pairs[|pairs| - 1].0
  }

  function SumProfit(pairs: seq<(real, real)>): real
  {
    if pairs == [] then 0.0 else SumProfit(pairs[..|pairs| - 1]) + pairs[|pairs| - 1].1
  }

  /** Cumulative operating cash flow over cumulative profit on the common
      years, when there are at least three and the profit sum is positive.
      The quality check holds exactly when cash flow covers 70% of profit. */
  function QualityRatio(pairs: seq<(real, real)>): (r: Option<real>)
    ensures r.Some? <==> |pairs| >= 3 && SumProfit(pairs) > 0.0
    ensures r.Some? ==> (Meets(r, MinGrowthQualityRatio) <==> SumOcf(pairs) >= MinGrowthQualityRatio * SumProfit(pairs))
  {
    if |pairs| >= 3 && SumProfit(pairs) > 0.0 then
      RatioAtLeast(SumOcf(pairs), SumProfit(pairs), MinGrowthQualityRatio);
      Some(SumOcf(pairs) / SumProfit(pairs))
    else None
  }

  lemma RatioAtLeast(a: real, b: real, k: real)
    requires b > 0.0
    ensures a / b >= k <==> a >= k * b
  {
    assert a / b * b == a;
    if a / b >= k {
      assert a / b * b >= k * b;
    } else {
      assert a / b * b < k * b;
    }
  }

  /** The change of the last value over the one before, in percent; None
      when the one before is 0. Over a positive base it is positive exactly
      when the last value is larger. */
  function RecentGrowthPct(series: seq<real>): (r: Option<real>)
    ensures r.Some? <==> |series| >= 2 && series[|series| - 2] != 0.0
    ensures r.Some? && series[|series| - 2] > 0.0 ==> (r.value > 0.0 <==> series[|series| - 1] > series[|series| - 2])
  {
    if |series| >= 2 && series[|series| - 2] != 0.0 then
      var prev := series[|series| - 2];
      var last := series[|series| - 1];
      GrowthSign(last, prev);
      Some((last / prev - 1.0) * 100.0)
    else None
  }

  lemma GrowthSign(last: real, prev: real)
    requires prev != 0.0
    ensures prev > 0.0 ==> ((last / prev - 1.0) * 100.0 > 0.0 <==> last > prev)
  {
    if prev > 0.0 {
      assert last / prev * prev == last;
      if last > prev {
        assert last / prev * prev > 1.0 * prev;
      } else {
        assert last / prev * prev <= 1.0 * prev;
      }
    }
  }

  /** `calculate_growth_metrics`: None for an empty income statement (or a
      CAGR whose rounding raises); otherwise the figures and the vote. The
      revenue and profit series are the first matching columns, None when
      missing; `cashFlow` pairs operating cash flow with profit on the
      common years, None without both series. */
  function GrowthMetrics(financialsEmpty: bool, revenue: Option<seq<real>>, profit: Option<seq<real>>,
                         cashFlow: Option<seq<(real, real)>>, cagr: (real, real, nat) -> Option<real>): (g: Option<Growth>)
    ensures financialsEmpty ==> g.None?
    ensures !financialsEmpty ==>
      (g.None? <==> (revenue.Some? && CagrPct(revenue.value, cagr).None?) || (profit.Some? && CagrPct(profit.value, cagr).None?))
    ensures g.Some? ==> g.value.revenueCagr == (if revenue.Some? then CagrPct(revenue.value, cagr).value else None)
    ensures g.Some? ==> g.value.profitCagr == (if profit.Some? then CagrPct(profit.value, cagr).value else None)
    ensures g.Some? ==> g.value.qualityRatio == (if cashFlow.Some? then QualityRatio(cashFlow.value) else None)
    ensures g.Some? ==> g.value.recentRevenueGrowth == (if revenue.Some? then RecentGrowthPct(revenue.value) else None)
    ensures g.Some? ==> g.value.recentProfitGrowth == (if profit.Some? then RecentGrowthPct(profit.value) else None)
    ensures g.Some? ==> (g.value.passes <==> GrowthVote(g.value.revenueCagr, g.value.profitCagr, g.value.qualityRatio))
    ensures g.Some? ==> (g.value.qualityRatio.Some? <==>
      cashFlow.Some? && |cashFlow.value| >= 3 && SumProfit(cashFlow.value) > 0.0)
    ensures g.Some? ==> (g.value.revenueCagr.Some? ==> revenue.Some? && |revenue.value| >= 2)
    ensures g.Some? ==> (g.value.profitCagr.Some? ==> profit.Some? && |profit.value| >= 2)
    ensures g.Some? ==> (g.value.dataYears != 0 <==> g.value.revenueCagr.Some?)
    ensures g.Some? && g.value.revenueCagr.Some? ==> g.value.dataYears == Min(5, |revenue.value|)
  {
    if financialsEmpty then None
    else
      var revenueCagr := if revenue.Some? then CagrPct(revenue.value, cagr) else Some(None);
      var profitCagr := if profit.Some? then CagrPct(profit.value, cagr) else Some(None);
      if revenueCagr.None? || profitCagr.None? then None
      else
        var quality := if cashFlow.Some? then QualityRatio(cashFlow.value) else None;
        var recentRevenue := if revenue.Some? then RecentGrowthPct(revenue.value) else None;
        var recentProfit := if profit.Some? then RecentGrowthPct(profit.value) else None;
        var years := if revenueCagr.value.Some? then Min(5, |revenue.value|) else 0;
        Some(Growth(revenueCagr.value, profitCagr.value, quality, recentRevenue, recentProfit,
                    GrowthVote(revenueCagr.value, profitCagr.value, quality), years))
  }

  // ---------------------------------------------------------------------------
  // calculate_valuation_score

  /** The typical NSE P/E range, (5, 18). */
  const TypicalPeLow := 5.0
  const TypicalPeHigh := 18.0

  datatype Classification =
    | Undervalued
    | FairlyValued
    | Overvalued
    | PotentiallyUndervalued
    | PotentiallyOvervalued
    | WithinTypicalRange
    | InsufficientData
  {
    function Label(): string
    {
      match this
      case Undervalued => "UNDERVALUED"
      case FairlyValued => "FAIRLY VALUED"
      case Overvalued => "OVERVALUED"
      case PotentiallyUndervalued => "POTENTIALLY UNDERVALUED"
      case PotentiallyOvervalued => "POTENTIALLY OVERVALUED"
      case WithinTypicalRange => "WITHIN TYPICAL RANGE"
      case InsufficientData => "INSUFFICIENT DATA"
    }
  }

  /** The quote fields read from the company info. */
  datatype Quote = Quote(price: Option<real>, sharesOutstanding: Option<real>, marketCap: Option<real>)

  datatype Valuation = Valuation(price: real, pe: Option<real>, historicalPe: Option<real>, peerPe: Option<real>,
                                 score: Option<real>, classification: Classification)

  /** Python truthiness of an optional number: present and not zero. */
  predicate Truthy(x: Option<real>)
  {
    x.Some? && x.value != 0.0
  }

  /** The share count: the reported one, or market cap over price when that
      is missing or 0 and a profit series exists. */
  function Shares(q: Quote, hasProfit: bool): Option<real>
  {
    if !Truthy(q.sharesOutstanding) && hasProfit && Truthy(q.marketCap) && Truthy(q.price)
    then Some(q.marketCap.value / q.price.value)
    else q.sharesOutstanding
  }

  function Sum(xs: seq<real>): real
  {
    if xs == [] then 0.0 else Sum(xs[..|xs| - 1]) + xs[|xs| - 1]
  }

  /** The mean of the last three profits (fewer when the series is shorter). */
  function Mean3(profit: seq<real>): real
    requires profit != []
  {
    var last := Tail(profit, 3);
    Sum(last) / (|last| as real)
  }

  /** Price over the latest earnings per share, when that is positive. */
  function CurrentPe(price: real, profit: seq<real>, shares: real): Option<real>
    requires profit != [] && shares != 0.0
  {
    var latest := profit[|profit| - 1];
    if latest != 0.0 && latest / shares > 0.0 then Some(price / (latest / shares)) else None
  }

  /** Price over the mean earnings per share of the last three years, when
      that is positive. */
  function HistoricalPe(price: real, profit: seq<real>, shares: real): Option<real>
    requires profit != [] && shares != 0.0
  {
    var avgEps := Mean3(profit) / shares;
    if avgEps > 0.0 then Some(price / avgEps) else None
  }

  /** The absolute P/E component: 0.8 below the typical range, 1.2 above it. */
  function AbsoluteComponent(pe: real): real
  {
    if pe < TypicalPeLow then 0.8 else if pe > TypicalPeHigh then 1.2 else 1.0
  }

  /** The weighted score and its class when both P/E figures are known. */
  function Score(pe: real, historicalPe: real, peerPe: real): real
    requires historicalPe != 0.0 && peerPe != 0.0
  {
    pe / historicalPe * 0.4 + pe / peerPe * 0.4 + AbsoluteComponent(pe) * 0.2
  }

  function ScoreClass(score: real): Classification
  {
    if score < 0.9 then Undervalued else if score < 1.1 then FairlyValued else Overvalued
  }

  /** The class from the current P/E alone. */
  function RangeClass(pe: real): (Classification, real)
  {
    if pe < TypicalPeLow then (PotentiallyUndervalued, 0.9)
    else if pe > TypicalPeHigh then (PotentiallyOvervalued, 1.2)
    else (WithinTypicalRange, 1.0)
  }

  /** `calculate_valuation_score`: None for an empty income statement, a
      missing or zero price, or an empty profit series (the IndexError the
      handler catches). The peer median is taken as 1.1 times the current
      P/E; the P/B ratio is not modelled. */
  function ValuationScore(financialsEmpty: bool, quote: Quote, profit: Option<seq<real>>): (r: Option<Valuation>)
    ensures r.None? <==>
      || financialsEmpty || !Truthy(quote.price)
      || (profit.Some? && Truthy(Shares(quote, true)) && profit.value == [])
    ensures r.Some? ==>
      var shares := Shares(quote, profit.Some?);
      var known := profit.Some? && Truthy(shares);
      && r.value.pe == (if known then CurrentPe(quote.price.value, profit.value, shares.value) else None)
      && r.value.historicalPe == (if known then HistoricalPe(quote.price.value, profit.value, shares.value) else None)
    ensures r.Some? && r.value.pe.Some? ==> r.value.peerPe == Some(r.value.pe.value * 1.1)
    ensures r.Some? && r.value.pe.Some? && r.value.historicalPe.Some? ==>
      r.value.historicalPe.value != 0.0 && r.value.pe.value != 0.0 &&
      r.value.score == Some(Score(r.value.pe.value, r.value.historicalPe.value, r.value.pe.value * 1.1))
    ensures r.Some? && r.value.pe.Some? && r.value.historicalPe.None? ==>
      r.value.score == Some(if r.value.pe.value < TypicalPeLow then 0.9 else if r.value.pe.value > TypicalPeHigh then 1.2 else 1.0)
    ensures r.Some? ==> r.value.price == quote.price.value
    ensures r.Some? ==> (r.value.peerPe.Some? <==> r.value.pe.Some?)
    ensures r.Some? ==> (r.value.classification == InsufficientData <==> r.value.pe.None?)
    ensures r.Some? ==> (r.value.score.None? <==> r.value.pe.None?)
    ensures r.Some? && r.value.pe.Some? && r.value.historicalPe.Some? ==>
      && r.value.classification in {Undervalued, FairlyValued, Overvalued}
      && (r.value.classification == Undervalued <==> r.value.score.value < 0.9)
      && (r.value.classification == Overvalued <==> r.value.score.value >= 1.1)
    ensures r.Some? && r.value.pe.Some? && r.value.historicalPe.None? ==>
      && r.value.classification in {PotentiallyUndervalued, PotentiallyOvervalued, WithinTypicalRange}
      && (r.value.classification == PotentiallyUndervalued <==> r.value.pe.value < TypicalPeLow)
      && (r.value.classification == PotentiallyOvervalued <==> r.value.pe.value > TypicalPeHigh)
  {
    if financialsEmpty || !Truthy(quote.price) then None
    else
      var price := quote.price.value;
      var shares := Shares(quote, profit.Some?);
      if profit.Some? && Truthy(shares) && profit.value == [] then None
      else
        var pe := if profit.Some? && Truthy(shares) then CurrentPe(price, profit.value, shares.value) else None;
        var historicalPe := if profit.Some? && Truthy(shares) then HistoricalPe(price, profit.value, shares.value) else None;
        var peerPe := if Truthy(pe) then Some(pe.value * 1.1) else None;
        if Truthy(pe) && Truthy(historicalPe) && Truthy(peerPe) then
          var score := Score(pe.value, historicalPe.value, peerPe.value);
          Some(Valuation(price, pe, historicalPe, peerPe, Some(score), ScoreClass(score)))
        else if Truthy(pe) then
          var (c, score) := RangeClass(pe.value);
          Some(Valuation(price, pe, historicalPe, peerPe, Some(score), c))
        else
          Some(Valuation(price, pe, historicalPe, peerPe, None, InsufficientData))
  }

  /** A computed valuation score with both P/E figures reduces to the profit
      history and the absolute band: 0.4 * mean/latest + 4/11 + 0.2 * band. */
  lemma ValuationScoreReduces(financialsEmpty: bool, quote: Quote, profit: Option<seq<real>>)
    requires ValuationScore(financialsEmpty, quote, profit).Some?
    requires ValuationScore(financialsEmpty, quote, profit).value.pe.Some?
    requires ValuationScore(financialsEmpty, quote, profit).value.historicalPe.Some?
    ensures profit.Some? && profit.value != []
    ensures var v := ValuationScore(financialsEmpty, quote, profit).value;
      v.score == Some(Mean3(profit.value) / profit.value[|profit.value| - 1] * 0.4 + 10.0 / 11.0 * 0.4
                      + AbsoluteComponent(v.pe.value) * 0.2)
  {
    var shares := Shares(quote, profit.Some?);
    ScoreFormula(quote.price.value, profit.value, shares.value);
  }

  /** The peer component is always 1/1.1: the peer median is derived from the
      current P/E itself, so it carries no information about peers. */
  lemma PeerComponentConstant(pe: real)
    requires pe != 0.0
    ensures pe / (pe * 1.1) == 10.0 / 11.0
  {
    assert pe * 1.1 * (10.0 / 11.0) == pe;
  }

  /** The historical component is the mean of the last three profits over the
      latest profit: price and share count cancel. */
  lemma HistoricalComponent(price: real, latest: real, mean: real, shares: real)
    requires price != 0.0 && latest != 0.0 && mean != 0.0 && shares != 0.0
    ensures (price / (latest / shares)) / (price / (mean / shares)) == mean / latest
  {
    var eps := latest / shares;
    var avgEps := mean / shares;
    assert eps * shares == latest;
    assert avgEps * shares == mean;
    assert price / eps * eps == price;
    assert price / avgEps * avgEps == price;
    assert (price / eps) / (price / avgEps) == avgEps / eps;
    assert avgEps / eps == mean / latest by {
      assert mean / latest * latest == mean;
      assert avgEps / eps * eps == avgEps;
      assert avgEps / eps * latest == mean;
    }
  }

  /** With both P/E figures known, the score depends only on the profit
      history and the absolute band: 0.4 * mean/latest + 4/11 + 0.2 * band. */
  lemma ScoreFormula(price: real, profit: seq<real>, shares: real)
    requires profit != [] && shares != 0.0 && price != 0.0
    requires CurrentPe(price, profit, shares).Some? && HistoricalPe(price, profit, shares).Some?
    ensures var pe := CurrentPe(price, profit, shares).value;
      var historicalPe := HistoricalPe(price, profit, shares).value;
      historicalPe != 0.0 && pe != 0.0 &&
      Score(pe, historicalPe, pe * 1.1)
        == Mean3(profit) / profit[|profit| - 1] * 0.4 + 10.0 / 11.0 * 0.4 + AbsoluteComponent(pe) * 0.2
  {
    var latest := profit[|profit| - 1];
    var pe := CurrentPe(price, profit, shares).value;
    var historicalPe := HistoricalPe(price, profit, shares).value;
    assert pe == price / (latest / shares);
    assert historicalPe == price / (Mean3(profit) / shares);
    assert Mean3(profit) != 0.0 by {
      assert Mean3(profit) / shares > 0.0;
    }
    assert latest / shares != 0.0;
    assert pe != 0.0 by {
      assert pe * (latest / shares) == price;
    }
    assert historicalPe != 0.0 by {
      assert historicalPe * (Mean3(profit) / shares) == price;
    }
    HistoricalComponent(price, latest, Mean3(profit), shares);
    PeerComponentConstant(pe);
  }
}
