/** The profit-and-loss curve at expiry: a grid of prices around the current
    price and, for each, the net payoff of the position (gross payoff of the
    contracts held minus the amount invested). The browser builds the grid
    by repeatedly adding a step; the Python front end uses an evenly spaced
    grid of a fixed number of points. */
module Payoff {
  import opened Pricing
  import opened RealArith

  /** The browser's grid is cut into this many steps. */
  const JsGridDivisions: real := 200.0

  /** The Python grid holds this many points. */
  const PyGridPoints: nat := 200

  /** Net profit or loss at expiry when the underlying ends at `p`: the
      exercise value per share times the shares held, less the investment. */
  function NetPayoff(kind: OptionType, p: real, strike: real, contracts: real, investment: real): real {
    Intrinsic(kind, p, strike) * contracts * Multiplier - investment
  }

  lemma ScaledSign(a: real, c: real)
    ensures a >= 0.0 && c >= 0.0 ==> a * c * Multiplier >= 0.0
  {
  }

  lemma ScaledMonotone(a: real, b: real, c: real)
    requires a <= b && c >= 0.0
    ensures a * c * Multiplier <= b * c * Multiplier
  {
    assert (b - a) * c >= 0.0;
  }

  /** The loss is capped at the investment; out of the money the whole
      investment is lost; in the money the position gains the moneyness on
      every share held. */
  lemma NetPayoffBounds(kind: OptionType, p: real, strike: real, contracts: real, investment: real)
    ensures contracts >= 0.0 ==> NetPayoff(kind, p, strike, contracts, investment) >= -investment
    ensures Moneyness(kind, p, strike) <= 0.0 ==> NetPayoff(kind, p, strike, contracts, investment) == -investment
    ensures Moneyness(kind, p, strike) > 0.0 ==>
              NetPayoff(kind, p, strike, contracts, investment)
              == Moneyness(kind, p, strike) * contracts * Multiplier - investment
  {
    ScaledSign(Intrinsic(kind, p, strike), contracts);
  }

  /** A long call gains (weakly) as the underlying rises; a long put loses. */
  lemma NetPayoffMonotone(kind: OptionType, p: real, q: real, strike: real, contracts: real, investment: real)
    requires p <= q && contracts >= 0.0
    ensures kind == Call ==> NetPayoff(kind, p, strike, contracts, investment)
                             <= NetPayoff(kind, q, strike, contracts, investment)
    ensures kind == Put ==> NetPayoff(kind, p, strike, contracts, investment)
                            >= NetPayoff(kind, q, strike, contracts, investment)
  {
    if kind == Call {
      ScaledMonotone(Intrinsic(kind, p, strike), Intrinsic(kind, q, strike), contracts);
    } else {
      ScaledMonotone(Intrinsic(kind, q, strike), Intrinsic(kind, p, strike), contracts);
    }
  }

  predicate StrictlyAscending(s: seq<real>) {
    forall i, j :: 0 <= i < j < |s| ==> s[i] < s[j]
  }

  predicate NonDecreasing(s: seq<real>) {
    forall i, j :: 0 <= i < j < |s| ==> s[i] <= s[j]
  }

  predicate NonIncreasing(s: seq<real>) {
    forall i, j :: 0 <= i < j < |s| ==> s[i] >= s[j]
  }

  /** `payoffs` holds, point for point, the net payoff at each grid price. */
  predicate IsPayoffCurve(kind: OptionType, prices: seq<real>, payoffs: seq<real>,
                          strike: real, contracts: real, investment: real) {
    && |payoffs| == |prices|
    && forall k :: 0 <= k < |prices| ==>
         payoffs[k] == NetPayoff(kind, prices[k], strike, contracts, investment)
  }

  /** The shape of a payoff curve over an ascending grid: never below the
      amount invested, flat at the full loss where the option ends out of
      the money, rising for a call and falling for a put. */
  lemma {:induction false} PayoffCurveShape(kind: OptionType, prices: seq<real>, payoffs: seq<real>,
                                            strike: real, contracts: real, investment: real)
    requires IsPayoffCurve(kind, prices, payoffs, strike, contracts, investment)
    requires contracts >= 0.0
    requires NonDecreasing(prices)
    ensures forall k :: 0 <= k < |payoffs| ==> payoffs[k] >= -investment
    ensures kind == Call ==> NonDecreasing(payoffs)
    ensures kind == Put ==> NonIncreasing(payoffs)
    ensures forall k :: 0 <= k < |prices| && Moneyness(kind, prices[k], strike) <= 0.0 ==>
              payoffs[k] == -investment
  {
    forall k | 0 <= k < |prices| {
      NetPayoffBounds(kind, prices[k], strike, contracts, investment);
    }
    forall i, j | 0 <= i < j < |payoffs|
      ensures kind == Call ==> payoffs[i] <= payoffs[j]
      ensures kind == Put ==> payoffs[i] >= payoffs[j]
    {
      NetPayoffMonotone(kind, prices[i], prices[j], strike, contracts, investment);
    }
  }

  /** Spacing of the browser's grid: a two-hundredth of the span from half
      to one and a half times the current price. */
  function JsGridStep(current: real): real {
    (current * 1.5 - current * 0.5) / JsGridDivisions
  }

  /** The price after `k` steps from the bottom of the browser's grid. */
  function JsGridPoint(current: real, k: nat): real {
    current * 0.5 + k as real * JsGridStep(current)
  }

  lemma JsGridPointFacts(current: real, k: nat)
    requires current > 0.0
    ensures JsGridStep(current) > 0.0
    ensures JsGridPoint(current, k) <= current * 1.5 <==> k <= 200
    ensures JsGridPoint(current, 200) == current * 1.5
  {
    var step := JsGridStep(current);
    assert step * JsGridDivisions == current;
    assert JsGridPoint(current, 200) == current * 0.5 + 200.0 * step;
    var gap := JsGridPoint(current, k) - JsGridPoint(current, 200);
    assert gap == (k as real - 200.0) * step;
    if k > 200 {
      PositiveProduct(k as real - 200.0, step);
    } else if k < 200 {
      PositiveProduct(200.0 - k as real, step);
      assert gap == -((200.0 - k as real) * step);
    }
  }

  /** One more step lands on the next grid point. */
  lemma JsGridNext(current: real, k: nat)
    ensures JsGridPoint(current, k) + (current * 1.5 - current * 0.5) / JsGridDivisions
            == JsGridPoint(current, k + 1)
  {
  }

  lemma JsGridAscending(current: real, i: nat, j: nat)
    requires current > 0.0 && i < j
    ensures JsGridPoint(current, i) < JsGridPoint(current, j)
  {
    var step := JsGridStep(current);
    assert step * JsGridDivisions == current;
    PositiveProduct((j - i) as real, step);
    assert JsGridPoint(current, j) - JsGridPoint(current, i) == (j - i) as real * step;
  }

  /** The browser's grid by index: the 201 points from half to one and a half
      times a non-negative current price, and none for a negative one. */
  function JsGrid(current: real): seq<real> {
    if current < 0.0 then []
    else seq(201, k requires 0 <= k < 201 => JsGridPoint(current, k))
  }

  /** At a zero current price the step is zero, so every point the loop
      reaches still passes its test `p <= maxP`: the loop as written never
      ends. */
  lemma ZeroPriceLoopNeverEnds(k: nat)
    ensures JsGridStep(0.0) == 0.0
    ensures JsGridPoint(0.0, k) <= 0.0 * 1.5
  {
  }

  /** The browser's simulation loop as written: start at half the current
      price, add the step while the price does not pass one and a half times
      the current price, and record each price with its net payoff. For a
      positive price this visits 201 points; for a negative one the loop does
      not run; for zero it would never end, hence the precondition. */
  method JsPayoffCurve(kind: OptionType, current: real, strike: real, contracts: real, investment: real)
    returns (prices: seq<real>, payoffs: seq<real>)
    requires current != 0.0
    ensures IsPayoffCurve(kind, prices, payoffs, strike, contracts, investment)
    ensures prices == JsGrid(current)
    ensures current < 0.0 ==> |prices| == 0
    ensures current > 0.0 ==> |prices| == 201
    ensures forall k :: 0 <= k < |prices| ==> prices[k] == JsGridPoint(current, k)
    ensures |prices| > 0 ==> prices[0] == current * 0.5 && prices[|prices| - 1] == current * 1.5
    ensures forall k :: 0 <= k < |prices| ==> prices[k] <= current * 1.5
    ensures StrictlyAscending(prices)
  {
    prices := [];
    payoffs := [];
    var minP := current * 0.5;
    var maxP := current * 1.5;
    var p := minP;
    while p <= maxP
      invariant current < 0.0 ==> |prices| == 0
      invariant current > 0.0 ==> |prices| <= 201
      invariant p == JsGridPoint(current, |prices|)
      invariant forall k :: 0 <= k < |prices| ==> prices[k] == JsGridPoint(current, k)
      invariant forall k :: 0 <= k < |prices| ==> prices[k] <= maxP
      invariant IsPayoffCurve(kind, prices, payoffs, strike, contracts, investment)
      decreases 201 - |prices|
    {
      if current > 0.0 {
        JsGridPointFacts(current, |prices|);
      }
      JsGridNext(current, |prices|);
      prices := prices + [p];
      payoffs := payoffs + [NetPayoff(kind, p, strike, contracts, investment)];
      p := p + (maxP - minP) / JsGridDivisions;
    }
    if current > 0.0 {
      JsGridPointFacts(current, |prices|);
      JsGridPointFacts(current, 200);
      forall i, j | 0 <= i < j < |prices| ensures prices[i] < prices[j] {
        JsGridAscending(current, i, j);
      }
    }
  }

  /** The same loop with the evident intent made explicit: it also stops once
      the 201 points are recorded. It agrees with the loop as written for
      every non-zero price and ends with 201 points at zero. */
  method JsPayoffCurveBounded(kind: OptionType, current: real, strike: real, contracts: real, investment: real)
    returns (prices: seq<real>, payoffs: seq<real>)
    ensures IsPayoffCurve(kind, prices, payoffs, strike, contracts, investment)
    ensures prices == JsGrid(current)
    ensures current >= 0.0 ==> |prices| == 201
    ensures current < 0.0 ==> |prices| == 0
    ensures current == 0.0 ==> forall k :: 0 <= k < |prices| ==> prices[k] == 0.0
    ensures current > 0.0 ==> prices[0] == current * 0.5 && prices[200] == current * 1.5
    ensures current != 0.0 ==> StrictlyAscending(prices)
  {
    prices := [];
    payoffs := [];
    var minP := current * 0.5;
    var maxP := current * 1.5;
    var p := minP;
    while p <= maxP && |prices| < 201
      invariant current < 0.0 ==> |prices| == 0
      invariant |prices| <= 201
      invariant p == JsGridPoint(current, |prices|)
      invariant forall k :: 0 <= k < |prices| ==> prices[k] == JsGridPoint(current, k)
      invariant IsPayoffCurve(kind, prices, payoffs, strike, contracts, investment)
      decreases 201 - |prices|
    {
      JsGridNext(current, |prices|);
      prices := prices + [p];
      payoffs := payoffs + [NetPayoff(kind, p, strike, contracts, investment)];
      p := p + (maxP - minP) / JsGridDivisions;
    }
    if current > 0.0 {
      JsGridPointFacts(current, |prices|);
      JsGridPointFacts(current, 200);
      forall i, j | 0 <= i < j < |prices| ensures prices[i] < prices[j] {
        JsGridAscending(current, i, j);
      }
    } else if current == 0.0 {
      ZeroPriceLoopNeverEnds(|prices|);
    }
  }

  /** numpy's `linspace(start, stop, num)` over reals: `num` points from
      `start`, each one step of (stop - start)/(num - 1) above the last,
      with the final point set to `stop` exactly. */
  function Linspace(start: real, stop: real, num: nat): (xs: seq<real>)
    ensures |xs| == num
    ensures num >= 1 ==> xs[0] == start
    ensures num >= 2 ==> xs[num - 1] == stop
    ensures num >= 2 ==> forall k :: 0 <= k < num - 1 ==>
              xs[k + 1] - xs[k] == (stop - start) / (num - 1) as real
    ensures start < stop ==> StrictlyAscending(xs)
  {
    if num == 0 then []
    else if num == 1 then [start]
    else
      var step := (stop - start) / (num - 1) as real;
      var xs := seq(num, k requires 0 <= k < num =>
                         if k == num - 1 then stop else start + k as real * step);
      LinspaceSpacing(start, stop, num, xs);
      xs
  }

  lemma LinspaceSpacing(start: real, stop: real, num: nat, xs: seq<real>)
    requires num >= 2 && |xs| == num
    requires forall k :: 0 <= k < num ==>
               xs[k] == if k == num - 1 then stop else start + k as real * ((stop - start) / (num - 1) as real)
    ensures forall k :: 0 <= k < num - 1 ==> xs[k + 1] - xs[k] == (stop - start) / (num - 1) as real
    ensures start < stop ==> StrictlyAscending(xs)
  {
    var step := (stop - start) / (num - 1) as real;
    assert step * (num - 1) as real == stop - start;
    forall k | 0 <= k < num - 1 ensures xs[k + 1] - xs[k] == step {
      if k + 1 < num - 1 {
        assert xs[k + 1] - xs[k] == ((k + 1) as real - k as real) * step;
      } else {
        assert xs[k] == start + (num - 2) as real * step;
        assert stop - xs[k] == ((num - 1) as real - (num - 2) as real) * step;
      }
    }
    if start < stop {
      assert step > 0.0;
      forall i, j | 0 <= i < j < num ensures xs[i] < xs[j] {
        AscendingBySteps(xs, step, i, j);
      }
    }
  }

  lemma {:induction false} AscendingBySteps(xs: seq<real>, step: real, i: nat, j: nat)
    requires step > 0.0
    requires forall k :: 0 <= k < |xs| - 1 ==> xs[k + 1] - xs[k] == step
    requires i < j < |xs|
    ensures xs[i] < xs[j]
    decreases j - i
  {
    if j > i + 1 {
      AscendingBySteps(xs, step, i, j - 1);
    }
  }

  /** The Python grid: 200 evenly spaced prices from half to one and a half
      times the current price. */
  function PyGrid(current: real): (prices: seq<real>)
    ensures |prices| == PyGridPoints
  {
    Linspace(current * 0.5, current * 1.5, PyGridPoints)
  }

  lemma PyGridFacts(current: real)
    ensures PyGrid(current)[0] == current * 0.5
    ensures PyGrid(current)[PyGridPoints - 1] == current * 1.5
    ensures forall k :: 0 <= k < PyGridPoints - 1 ==>
              PyGrid(current)[k + 1] - PyGrid(current)[k] == current / (PyGridPoints - 1) as real
    ensures current > 0.0 ==> StrictlyAscending(PyGrid(current))
  {
    assert (current * 1.5 - current * 0.5) / (PyGridPoints - 1) as real == current / (PyGridPoints - 1) as real;
  }

  /** The Python simulation loop: for each grid price in turn, the payoff of
      the position at expiry less the investment. */
  method PayoffsAt(kind: OptionType, prices: seq<real>, strike: real, contracts: real, investment: real)
    returns (payoffs: seq<real>)
    ensures IsPayoffCurve(kind, prices, payoffs, strike, contracts, investment)
  {
    payoffs := [];
    var i := 0;
    while i < |prices|
      invariant 0 <= i <= |prices|
      invariant |payoffs| == i
      invariant forall k :: 0 <= k < i ==> payoffs[k] == NetPayoff(kind, prices[k], strike, contracts, investment)
    {
      var p := prices[i];
      var payoff := Intrinsic(kind, p, strike) * contracts * Multiplier;
      payoffs := payoffs + [payoff - investment];
      i := i + 1;
    }
  }

  /** The Python simulation: the evenly spaced grid and its payoffs. */
  method PyPayoffCurve(kind: OptionType, current: real, strike: real, contracts: real, investment: real)
    returns (prices: seq<real>, payoffs: seq<real>)
    ensures IsPayoffCurve(kind, prices, payoffs, strike, contracts, investment)
    ensures prices == PyGrid(current)
    ensures |prices| == PyGridPoints
    ensures prices[0] == current * 0.5 && prices[PyGridPoints - 1] == current * 1.5
    ensures forall k :: 0 <= k < PyGridPoints - 1 ==>
              prices[k + 1] - prices[k] == current / (PyGridPoints - 1) as real
    ensures current > 0.0 ==> StrictlyAscending(prices)
  {
    prices := PyGrid(current);
    PyGridFacts(current);
    payoffs := PayoffsAt(kind, prices, strike, contracts, investment);
  }
}
