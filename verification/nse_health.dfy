/**
  The financial-health gate of the NSE Kenya screener: four filters applied
  in turn to a company's statements (profit consistency, debt to equity,
  cash-flow quality, margin stability); the first that fails rejects the
  company with its reason. The pandas statements are given as the series
  and last values the filters read.
 */
module NseHealth {
  import opened Common
  import opened PyText

  const MinProfitYears := 5
  const DebtToEquityMax := 1.0
  const MinPositiveOcfYears := 3
  const MarginDeclineThreshold := 0.33

  /** The last value of the first matching balance-sheet column of each kind
      (0 for an empty column); None when no column of that kind exists. */
  datatype BalanceSheet = BalanceSheet(debt: Option<real>, equity: Option<real>,
                                       assets: Option<real>, liabilities: Option<real>)

  /** What the filters read from the three statements:
      - whether the income statement is empty;
      - the net income series (first matching column), oldest year first;
      - the balance sheet, None when it is empty;
      - the (operating cash flow, net income) pairs on the years both series
        cover, None when the cash-flow statement is empty or has no
        operating cash-flow column;
      - the operating margin series in percent (NaN dropped), None when the
        operating income or the revenue column is missing. */
  datatype Statements = Statements(financialsEmpty: bool, netIncome: Option<seq<real>>,
                                   balanceSheet: Option<BalanceSheet>,
                                   cashFlow: Option<seq<(real, real)>>,
                                   margins: Option<seq<real>>)

  /** The reported debt-to-equity: a ratio, or 'N/A' without a balance sheet. */
  datatype DebtToEquity = Ratio(value: real) | NotApplicable

  datatype Reason =
    | NoFinancialData
    | NetIncomeNotFound
    | ProfitNotPositive(years: nat)
    | DebtTooHigh(ratio: real)
    | PoorCashFlow(years: nat)
    | MarginDeclined(decline: real)

  /** The gate's verdict with the filter results a passing company carries on. */
  datatype Health =
    | Passed(yearsChecked: nat, debtToEquity: DebtToEquity, ocfQualityYears: Option<nat>, marginDecline: Option<real>)
    | Rejected(reason: Reason)

  // ---------------------------------------------------------------------------
  // The filters, each stated on its own

  /** Filter 1: net income is positive in each of the last min(5, n) years. */
  predicate ProfitConsistent(netIncome: seq<real>)
  {
    forall i :: |netIncome| - Min(MinProfitYears, |netIncome|) <= i < |netIncome| ==> netIncome[i] > 0.0
  }

  /** The equity the debt filter divides by: when the equity column is missing
      or 0, assets minus liabilities if both are present. */
  function EquityOf(bs: BalanceSheet): Option<real>
  {
    if (bs.equity.None? || bs.equity.value == 0.0) && bs.assets.Some? && bs.liabilities.Some?
    then Some(bs.assets.value - bs.liabilities.value)
    else bs.equity
  }

  /** Debt over equity, taken as 0 when debt or equity is missing or the
      equity is not positive. */
  function DebtRatio(bs: BalanceSheet): (r: real)
    ensures bs.debt.None? || EquityOf(bs).None? || EquityOf(bs).value <= 0.0 ==> r == 0.0
    ensures r > 0.0 <==> bs.debt.Some? && bs.debt.value > 0.0 && EquityOf(bs).Some? && EquityOf(bs).value > 0.0
  {
    var equity := EquityOf(bs);
    if bs.debt.Some? && equity.Some? && equity.value > 0.0 then
      DivisionSign(bs.debt.value, equity.value);
      bs.debt.value / equity.value
    else 0.0
  }

  lemma DivisionSign(a: real, b: real)
    requires b > 0.0
    ensures a / b > 0.0 <==> a > 0.0
  {
    if a > 0.0 {
      assert a / b * b == a;
    } else {
      assert a / b * b == a;
    }
  }

  /** Filter 2: passes without a balance sheet, otherwise needs D/E below 1. */
  predicate DebtOk(bs: Option<BalanceSheet>)
  {
    bs.None? || DebtRatio(bs.value) < DebtToEquityMax
  }

  /** The number of years with operating cash flow above net income. */
  function OcfAboveProfit(pairs: seq<(real, real)>): (n: nat)
    ensures n <= |pairs|
  {
    if pairs == [] then 0
    else OcfAboveProfit(pairs[..|pairs| - 1]) + (if pairs[|pairs| - 1].0 > pairs[|pairs| - 1].1 then 1 else 0)
  }

  /** Filter 3: with at least 3 common years, at least 3 of them have
      operating cash flow above net income; otherwise not checked. */
  predicate CashFlowOk(cashFlow: Option<seq<(real, real)>>)
  {
    cashFlow.None? || |cashFlow.value| < MinPositiveOcfYears || OcfAboveProfit(cashFlow.value) >= MinPositiveOcfYears
  }

  /** The largest value of a non-empty series. */
  function Peak(xs: seq<real>): (m: real)
    requires xs != []
    ensures m in xs
    ensures forall i :: 0 <= i < |xs| ==> xs[i] <= m
  {
    if |xs| == 1 then xs[0]
    else
      var m := Peak(xs[..|xs| - 1]);
      if xs[|xs| - 1] > m then xs[|xs| - 1] else m
  }

  /** The relative fall of the latest margin from the peak of the last three;
      None when there are fewer than three margins or the peak is not positive. */
  function MarginDecline(margins: seq<real>): (d: Option<real>)
    ensures d.Some? ==> |margins| >= 3 && Peak(margins[|margins| - 3..]) > 0.0
    ensures d.Some? ==> d.value >= 0.0
  {
    if |margins| < 3 then None
    else
      var peak := Peak(margins[|margins| - 3..]);
      var current := margins[|margins| - 1];
      if peak > 0.0 then
        assert current == margins[|margins| - 3..][2];
        DeclineNonNegative(peak, current);
        Some((peak - current) / peak)
      else None
  }

  lemma DeclineNonNegative(peak: real, current: real)
    requires peak > 0.0 && current <= peak
    ensures (peak - current) / peak >= 0.0
  {
    assert (peak - current) / peak * peak == peak - current;
  }

  /** Filter 4: the decline from the 3-year peak stays under a third. */
  predicate MarginOk(margins: Option<seq<real>>)
  {
    margins.None? || MarginDecline(margins.value).None? || MarginDecline(margins.value).value < MarginDeclineThreshold
  }

  /** The statements reach the filters: data present and a net income column. */
  predicate HasNetIncome(s: Statements)
  {
    !s.financialsEmpty && s.netIncome.Some?
  }

  /** Every filter passes. */
  predicate AllFiltersPass(s: Statements)
  {
    HasNetIncome(s) && ProfitConsistent(s.netIncome.value) && DebtOk(s.balanceSheet)
    && CashFlowOk(s.cashFlow) && MarginOk(s.margins)
  }

  // ---------------------------------------------------------------------------
  // Helpers the gate computes with

  /** `(series > 0).all()`. */
  function AllPositive(xs: seq<real>): bool
  {
    xs == [] || (xs[0] > 0.0 && AllPositive(xs[1..]))
  }

  lemma {:induction false} AllPositiveIff(xs: seq<real>)
    ensures AllPositive(xs) <==> forall i :: 0 <= i < |xs| ==> xs[i] > 0.0
  {
    if xs != [] {
      AllPositiveIff(xs[1..]);
      assert forall i :: 1 <= i < |xs| ==> xs[i] == xs[1..][i - 1];
    }
  }

  /** The margin stability step says the same as `MarginOk`: the latest
      margin must stay above 67% of the 3-year peak. */
  lemma MarginOkIff(margins: seq<real>)
    requires |margins| >= 3 && Peak(margins[|margins| - 3..]) > 0.0
    ensures MarginOk(Some(margins)) <==> margins[|margins| - 1] > 0.67 * Peak(margins[|margins| - 3..])
  {
    var peak := Peak(margins[|margins| - 3..]);
    var current := margins[|margins| - 1];
    assert MarginDecline(margins) == Some((peak - current) / peak);
    DeclineBelowThreshold(peak, current);
  }

  lemma PositiveProduct(a: real, b: real)
    requires a > 0.0 && b > 0.0
    ensures a * b > 0.0
  {
  }

  lemma DeclineBelowThreshold(peak: real, current: real)
    requires peak > 0.0
    ensures (peak - current) / peak < 0.33 <==> current > 0.67 * peak
  {
    var d := (peak - current) / peak;
    assert d * peak == peak - current;
    var e := 0.33 - d;
    assert e * peak == 0.33 * peak - (peak - current);
    if e > 0.0 {
      PositiveProduct(e, peak);
    } else if e < 0.0 {
      PositiveProduct(-e, peak);
      assert (-e) * peak == -(e * peak);
    } else {
      assert e * peak == 0.0;
    }
  }

  // ---------------------------------------------------------------------------
  // apply_financial_health_filters

  /** The first filter's step: the last min(5, n) net incomes, all positive. */
  method ProfitConsistency(netIncome: seq<real>) returns (requiredYears: nat, profitCheck: bool)
    ensures requiredYears == Min(MinProfitYears, |netIncome|)
    ensures profitCheck <==> ProfitConsistent(netIncome)
  {
    requiredYears := Min(MinProfitYears, |netIncome|);
    var lastYears := Tail(netIncome, requiredYears);
    profitCheck := if |lastYears| == requiredYears then AllPositive(lastYears) else false;
    AllPositiveIff(lastYears);
    forall i | |netIncome| - requiredYears <= i < |netIncome|
      ensures netIncome[i] == lastYears[i - (|netIncome| - requiredYears)]
    {
    }
  }

  /** `apply_financial_health_filters`: the filters in order, returning at the
      first that fails. PASSED exactly when every filter passes; a rejection
      names the first failing filter, and all filters before it passed. */
  method ApplyFinancialHealthFilters(s: Statements) returns (passed: bool, result: Health)
    ensures passed <==> result.Passed?
    ensures passed <==> AllFiltersPass(s)
    ensures s.financialsEmpty ==> result == Rejected(NoFinancialData)
    ensures !s.financialsEmpty && s.netIncome.None? ==> result == Rejected(NetIncomeNotFound)
    ensures result == Rejected(NoFinancialData) ==> s.financialsEmpty
    ensures result == Rejected(NetIncomeNotFound) ==> !s.financialsEmpty && s.netIncome.None?
    ensures result.Rejected? && result.reason.ProfitNotPositive? ==>
      HasNetIncome(s) && !ProfitConsistent(s.netIncome.value)
      && result.reason.years == Min(MinProfitYears, |s.netIncome.value|)
    ensures result.Rejected? && result.reason.DebtTooHigh? ==>
      HasNetIncome(s) && ProfitConsistent(s.netIncome.value) && !DebtOk(s.balanceSheet)
      && result.reason.ratio == DebtRatio(s.balanceSheet.value)
    ensures result.Rejected? && result.reason.PoorCashFlow? ==>
      HasNetIncome(s) && ProfitConsistent(s.netIncome.value) && DebtOk(s.balanceSheet) && !CashFlowOk(s.cashFlow)
      && result.reason.years == OcfAboveProfit(s.cashFlow.value)
    ensures result.Rejected? && result.reason.MarginDeclined? ==>
      HasNetIncome(s) && ProfitConsistent(s.netIncome.value) && DebtOk(s.balanceSheet) && CashFlowOk(s.cashFlow)
      && !MarginOk(s.margins) && Some(result.reason.decline) == MarginDecline(s.margins.value)
    ensures passed ==>
      && result.yearsChecked == Min(MinProfitYears, |s.netIncome.value|)
      && (s.balanceSheet.None? ==> result.debtToEquity == NotApplicable)
      && (s.balanceSheet.Some? ==> result.debtToEquity == Ratio(DebtRatio(s.balanceSheet.value)))
      && (result.ocfQualityYears.Some? <==> s.cashFlow.Some? && |s.cashFlow.value| >= MinPositiveOcfYears)
      && (result.ocfQualityYears.Some? ==> result.ocfQualityYears.value == OcfAboveProfit(s.cashFlow.value))
      && (s.margins.Some? ==> result.marginDecline == MarginDecline(s.margins.value))
      && (s.margins.None? ==> result.marginDecline.None?)
  {
    if s.financialsEmpty {
      return false, Rejected(NoFinancialData);
    }
    if s.netIncome.None? {
      return false, Rejected(NetIncomeNotFound);
    }
    var netIncome := s.netIncome.value;

    // Filter 1: profit consistency
    var requiredYears, profitCheck := ProfitConsistency(netIncome);
    if !profitCheck {
      return false, Rejected(ProfitNotPositive(requiredYears));
    }

    // Filter 2: debt to equity
    var debtToEquity := NotApplicable;
    if s.balanceSheet.Some? {
      var ratio := DebtRatio(s.balanceSheet.value);
      debtToEquity := Ratio(ratio);
      if !(ratio < DebtToEquityMax) {
        return false, Rejected(DebtTooHigh(ratio));
      }
    }

    // Filter 3: cash-flow quality
    var ocfQualityYears: Option<nat> := None;
    if s.cashFlow.Some? && |s.cashFlow.value| >= MinPositiveOcfYears {
      var quality := OcfAboveProfit(s.cashFlow.value);
      ocfQualityYears := Some(quality);
      if quality < MinPositiveOcfYears {
        return false, Rejected(PoorCashFlow(quality));
      }
    }

    // Filter 4: margin stability
    var marginDecline: Option<real> := None;
    if s.margins.Some? {
      marginDecline := MarginDecline(s.margins.value);
      if marginDecline.Some? && !(marginDecline.value < MarginDeclineThreshold) {
        return false, Rejected(MarginDeclined(marginDecline.value));
      }
    }

    return true, Passed(requiredYears, debtToEquity, ocfQualityYears, marginDecline);
  }
}
