/** Option pricing: the option type, the intrinsic-value guard around the
    closed-form formula, the year fraction of a day count, the mapping of
    the user's option label to a type, and the sizing of a position in
    contracts. The closed form itself (log, exp, sqrt and the normal CDF)
    is an abstract function supplied by the caller. */
module Pricing {

  datatype OptionType = Call | Put

  /** Shares per option contract. */
  const Multiplier: real := 100.0

  /** Calendar days per year used to turn a day count into years. */
  const DaysPerYear: real := 365.0

  /** The closed-form fair value, taken as given:
      (option type, spot, strike, years to expiry, volatility) -> price. */
  type ClosedForm = (OptionType, real, real, real, real) -> real

  /** The numerical parts the simulator calls but this model does not
      define: the annualised volatility of a run of closing prices (log
      returns, their sample standard deviation, scaled by the square root of
      252 trading days) and the closed form. */
  datatype Engine = Engine(volatility: seq<real> -> real, closedForm: ClosedForm)

  /** How far the option is in the money, signed: spot - strike for a call,
      strike - spot for a put. */
  function Moneyness(kind: OptionType, spot: real, strike: real): real {
    match kind
    case Call => spot - strike
    case Put => strike - spot
  }

  /** The value of exercising now: the positive part of the moneyness. */
  function Intrinsic(kind: OptionType, spot: real, strike: real): (v: real)
    ensures v >= 0.0
    ensures v >= Moneyness(kind, spot, strike)
    ensures v == 0.0 || v == Moneyness(kind, spot, strike)
  {
    if Moneyness(kind, spot, strike) > 0.0 then Moneyness(kind, spot, strike) else 0.0
  }

  /** At exercise, a call minus a put on the same strike is worth exactly
      spot - strike (put-call parity with no time value left). */
  lemma IntrinsicParity(spot: real, strike: real)
    ensures Intrinsic(Call, spot, strike) - Intrinsic(Put, spot, strike) == spot - strike
  {
  }

  /** True when the closed form is not used: no time left or no volatility. */
  predicate Degenerate(years: real, sigma: real) {
    years <= 0.0 || sigma <= 0.0
  }

  /** The pricing entry point: intrinsic value for an expired or riskless
      contract, otherwise the closed form. */
  function BlackScholes(kind: OptionType, spot: real, strike: real, years: real, sigma: real,
                        closedForm: ClosedForm): (v: real)
    ensures Degenerate(years, sigma) ==> v >= 0.0
    ensures Degenerate(years, sigma) ==> v == 0.0 || v == Moneyness(kind, spot, strike)
    ensures Degenerate(years, sigma) ==> v >= Moneyness(kind, spot, strike)
    ensures !Degenerate(years, sigma) ==> v == closedForm(kind, spot, strike, years, sigma)
  {
    if years <= 0.0 || sigma <= 0.0 then Intrinsic(kind, spot, strike)
    else closedForm(kind, spot, strike, years, sigma)
  }

  /** On the degenerate branch the priced call and put keep put-call parity
      with no discounting, whatever the closed form would have said. */
  lemma DegenerateParity(spot: real, strike: real, years: real, sigma: real, closedForm: ClosedForm)
    requires Degenerate(years, sigma)
    ensures BlackScholes(Call, spot, strike, years, sigma, closedForm)
            - BlackScholes(Put, spot, strike, years, sigma, closedForm) == spot - strike
  {
    IntrinsicParity(spot, strike);
  }

  /** Years to expiry from a whole number of days. */
  function YearFraction(days: int): (years: real)
    ensures years * DaysPerYear == days as real
    ensures years <= 0.0 <==> days <= 0
  {
    days as real / DaysPerYear
  }

  /** The browser passes the selected option value verbatim: only the exact
      string "call" prices a call, anything else prices a put. */
  function OptionTypeOfValue(value: string): (kind: OptionType)
    ensures kind == Call <==> value == "call"
  {
    if value == "call" then Call else Put
  }

  /** The character that marks a call in the Korean option label. */
  const CallMark: char := '콜'

  /** The Python front end maps its radio label to a type: a label that
      contains the call mark anywhere prices a call, any other a put. */
  function OptionTypeOfLabel(caption: string): (kind: OptionType)
    ensures kind == Call <==> exists i :: 0 <= i < |caption| && caption[i] == CallMark
    ensures |caption| > 0 && caption[0] == CallMark ==> kind == Call
  {
    if CallMark in caption then Call else Put
  }

  /** The two captions the page offers map to the intended types. */
  lemma RadioCaptions()
    ensures OptionTypeOfLabel("콜 (오를 것)") == Call
    ensures OptionTypeOfLabel("풋 (내릴 것)") == Put
  {
    assert "콜 (오를 것)"[0] == CallMark;
  }

  /** Number of contracts the investment buys at the given option price;
      zero when the option is priced at or below zero. */
  function Contracts(investment: real, optionPrice: real): (n: real)
    ensures optionPrice <= 0.0 ==> n == 0.0
    ensures optionPrice > 0.0 ==> n * optionPrice * Multiplier == investment
    ensures investment >= 0.0 ==> n >= 0.0
    ensures investment > 0.0 && optionPrice > 0.0 ==> n > 0.0
  {
    if optionPrice > 0.0 then investment / (optionPrice * Multiplier) else 0.0
  }
}
