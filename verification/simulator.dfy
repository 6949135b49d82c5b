/** The two single-shot simulations, each end to end: take the latest close
    as the current price, price the option, size the position, and build
    the profit-and-loss curve. The browser version also refuses to run
    before any price history has been loaded. */
module Simulator {
  import opened Wrappers
  import opened Pricing
  import opened Payoff

  /** What the summary and the chart show. */
  datatype Summary = Summary(current: real, optionPrice: real, contracts: real,
                             prices: seq<real>, payoffs: seq<real>)

  /** What the browser's simulation promises about its summary: the latest
      close is the current price, the option is priced with the volatility
      of all closes, the position is sized on that price, and the curve is
      the browser's grid with one net payoff per point, never below the
      loss of the whole (non-negative) investment. */
  predicate IsJsSummary(s: Summary, closes: seq<real>, kind: OptionType, days: int, strike: real,
                        investment: real, engine: Engine)
    requires |closes| > 0
  {
    && s.current == closes[|closes| - 1]
    && s.optionPrice == BlackScholes(kind, s.current, strike, YearFraction(days),
                                     engine.volatility(closes), engine.closedForm)
    && (s.optionPrice > 0.0 ==> s.contracts * s.optionPrice * Multiplier == investment)
    && (s.optionPrice <= 0.0 ==> s.contracts == 0.0)
    && IsPayoffCurve(kind, s.prices, s.payoffs, strike, s.contracts, investment)
    && s.prices == JsGrid(s.current)
    && (s.current >= 0.0 ==> |s.prices| == 201)
    && (s.current > 0.0 ==> StrictlyAscending(s.prices))
    && (investment >= 0.0 ==> forall k :: 0 <= k < |s.payoffs| ==> s.payoffs[k] >= -investment)
    && (investment >= 0.0 && s.current > 0.0 && kind == Call ==> NonDecreasing(s.payoffs))
    && (investment >= 0.0 && s.current > 0.0 && kind == Put ==> NonIncreasing(s.payoffs))
  }

  /** The shape of the browser's curve: with a non-negative investment the
      contracts are non-negative, so no payoff is below the loss of the whole
      investment, and over the ascending grid of a positive price a call's
      payoffs rise and a put's fall. */
  lemma JsCurveShape(kind: OptionType, current: real, prices: seq<real>, payoffs: seq<real>,
                     strike: real, contracts: real, investment: real)
    requires IsPayoffCurve(kind, prices, payoffs, strike, contracts, investment)
    requires current > 0.0 ==> StrictlyAscending(prices)
    requires investment >= 0.0 ==> contracts >= 0.0
    ensures investment >= 0.0 ==> forall k :: 0 <= k < |payoffs| ==> payoffs[k] >= -investment
    ensures investment >= 0.0 && current > 0.0 && kind == Call ==> NonDecreasing(payoffs)
    ensures investment >= 0.0 && current > 0.0 && kind == Put ==> NonIncreasing(payoffs)
  {
    if investment >= 0.0 && current > 0.0 {
      PayoffCurveShape(kind, prices, payoffs, strike, contracts, investment);
    } else if investment >= 0.0 {
      forall k | 0 <= k < |payoffs| ensures payoffs[k] >= -investment {
        NetPayoffBounds(kind, prices[k], strike, contracts, investment);
      }
    }
  }

  /** The browser's simulation once a history is loaded: the latest close
      is the current price, the volatility is estimated on all closes. The
      curve comes from the bounded loop, which agrees with the loop as
      written at every non-zero price. */
  method JsSimulate(closes: seq<real>, kind: OptionType, days: int, strike: real,
                    investment: real, engine: Engine)
    returns (s: Summary)
    requires |closes| > 0
    ensures IsJsSummary(s, closes, kind, days, strike, investment, engine)
  {
    var current := closes[|closes| - 1];
    var sigma := engine.volatility(closes);
    var optPrice := BlackScholes(kind, current, strike, YearFraction(days), sigma, engine.closedForm);
    var contracts := Contracts(investment, optPrice);
    var prices, payoffs := JsPayoffCurveBounded(kind, current, strike, contracts, investment);
    JsCurveShape(kind, current, prices, payoffs, strike, contracts, investment);
    s := Summary(current, optPrice, contracts, prices, payoffs);
  }

  /** The browser's "calculate" action. `optionValue` is the selected option
      type as the page passes it; `history` is None until a price file has
      loaded, and then the action only alerts. */
  method CalcAndShow(history: Option<seq<real>>, optionValue: string, days: int, strike: real,
                     investment: real, engine: Engine)
    returns (summary: Option<Summary>)
    requires history.Some? ==> |history.value| > 0
    ensures summary.None? <==> history.None?
    ensures summary.Some? ==>
              IsJsSummary(summary.value, history.value, OptionTypeOfValue(optionValue), days, strike,
                          investment, engine)
  {
    if history.None? {
      return None;
    }
    var s := JsSimulate(history.value, OptionTypeOfValue(optionValue), days, strike, investment, engine);
    summary := Some(s);
  }

  /** The browser's "calculate" action as written: on the closed-form branch
      the undefined `Math.erfc` throws, so no curve and no summary appear.
      On the intrinsic branch the curve comes from the loop as written, which
      never ends at a zero price; that case is excluded. */
  method CalcAndShowAsWritten(history: Option<seq<real>>, optionValue: string, days: int, strike: real,
                              investment: real, engine: Engine)
    returns (summary: Option<Summary>)
    requires history.Some? ==> |history.value| > 0
    requires history.Some? && Degenerate(YearFraction(days), engine.volatility(history.value)) ==>
               history.value[|history.value| - 1] != 0.0
    ensures history.None? ==> summary.None?
    ensures history.Some? && !Degenerate(YearFraction(days), engine.volatility(history.value)) ==>
              summary.None?
    ensures history.Some? && Degenerate(YearFraction(days), engine.volatility(history.value)) ==>
              && summary.Some?
              && IsJsSummary(summary.value, history.value, OptionTypeOfValue(optionValue), days, strike,
                             investment, engine)
  {
    if history.None? || !Degenerate(YearFraction(days), engine.volatility(history.value)) {
      return None;
    }
    var closes := history.value;
    var kind := OptionTypeOfValue(optionValue);
    var current := closes[|closes| - 1];
    var optPrice := BlackScholes(kind, current, strike, YearFraction(days), engine.volatility(closes),
                                 engine.closedForm);
    var contracts := Contracts(investment, optPrice);
    var prices, payoffs := JsPayoffCurve(kind, current, strike, contracts, investment);
    JsCurveShape(kind, current, prices, payoffs, strike, contracts, investment);
    summary := Some(Summary(current, optPrice, contracts, prices, payoffs));
  }

  /** The Python page: the radio caption picks the option type, the days
      slider gives the expiry, `sigma` is the volatility of the downloaded
      history. */
  method PySimulate(caption: string, current: real, strike: real, days: int, investment: real,
                    sigma: real, closedForm: ClosedForm)
    returns (s: Summary)
    ensures var kind := OptionTypeOfLabel(caption);
            && s.current == current
            && s.optionPrice == BlackScholes(kind, current, strike, YearFraction(days), sigma, closedForm)
            && (s.optionPrice > 0.0 ==> s.contracts * s.optionPrice * Multiplier == investment)
            && (s.optionPrice <= 0.0 ==> s.contracts == 0.0)
            && IsPayoffCurve(kind, s.prices, s.payoffs, strike, s.contracts, investment)
            && |s.prices| == PyGridPoints
            && s.prices == PyGrid(current)
            && s.prices[0] == current * 0.5 && s.prices[PyGridPoints - 1] == current * 1.5
            && (forall k :: 0 <= k < PyGridPoints - 1 ==>
                  s.prices[k + 1] - s.prices[k] == current / (PyGridPoints - 1) as real)
            && (current > 0.0 ==> StrictlyAscending(s.prices))
            && (investment >= 0.0 ==> forall k :: 0 <= k < |s.payoffs| ==> s.payoffs[k] >= -investment)
            && (investment >= 0.0 && current > 0.0 && kind == Call ==> NonDecreasing(s.payoffs))
            && (investment >= 0.0 && current > 0.0 && kind == Put ==> NonIncreasing(s.payoffs))
  {
    var kind := OptionTypeOfLabel(caption);
    var optionPrice := BlackScholes(kind, current, strike, YearFraction(days), sigma, closedForm);
    var contracts := Contracts(investment, optionPrice);
    var prices, payoffs := PyPayoffCurve(kind, current, strike, contracts, investment);
    if investment >= 0.0 && current > 0.0 {
      PayoffCurveShape(kind, prices, payoffs, strike, contracts, investment);
    } else if investment >= 0.0 {
      forall k | 0 <= k < |payoffs| ensures payoffs[k] >= -investment {
        NetPayoffBounds(kind, prices[k], strike, contracts, investment);
      }
    }
    s := Summary(current, optionPrice, contracts, prices, payoffs);
  }
}
