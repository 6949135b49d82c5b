/** The replay of a price history: a cursor that, once started, reveals one
    more closing price per timer tick and prices the option on the history
    revealed so far, until the history is exhausted or the user stops it.
    The timer is the caller: each call of `Tick` is one timer callback. */
module Replay {
  import opened Wrappers
  import opened Pricing

  /** `running` is whether the timer is set; `index` is the next step. */
  datatype Cursor = Cursor(running: bool, index: nat)

  /** What one tick shows: the step, the close at that step, and the
      option's value priced on the history up to and including it. */
  datatype Snapshot = Snapshot(step: nat, price: real, optionValue: real)

  /** The contract as the tick reads it from the page. */
  datatype Inputs = Inputs(kind: OptionType, strike: real, days: int)

  /** One tick's outcome: the new cursor and the snapshot, if one was shown. */
  datatype Step = Step(cursor: Cursor, shown: Option<Snapshot>)

  /** Closes revealed when step `i` is shown: the first i + 1 of them. */
  function Prefix(closes: seq<real>, i: nat): (prefix: seq<real>)
    requires i < |closes|
    ensures |prefix| == i + 1
    ensures prefix[i] == closes[i]
    ensures forall k :: 0 <= k <= i ==> prefix[k] == closes[k]
  {
    closes[..i + 1]
  }

  /** The snapshot for step `i`: spot is the last revealed close, volatility
      is estimated on the revealed closes, and the option is priced on them. */
  function SnapshotAt(closes: seq<real>, i: nat, inputs: Inputs, engine: Engine): (s: Snapshot)
    requires i < |closes|
    ensures s.step == i && s.price == closes[i]
    ensures inputs.days <= 0 ==> s.optionValue == Intrinsic(inputs.kind, closes[i], inputs.strike)
    ensures engine.volatility(Prefix(closes, i)) <= 0.0 ==>
              s.optionValue == Intrinsic(inputs.kind, closes[i], inputs.strike)
    ensures !Degenerate(YearFraction(inputs.days), engine.volatility(Prefix(closes, i))) ==>
              s.optionValue == engine.closedForm(inputs.kind, closes[i], inputs.strike,
                                                 YearFraction(inputs.days), engine.volatility(Prefix(closes, i)))
  {
    var prefix := Prefix(closes, i);
    var spot := prefix[|prefix| - 1];
    var sigma := engine.volatility(prefix);
    Snapshot(i, spot, BlackScholes(inputs.kind, spot, inputs.strike, YearFraction(inputs.days),
                                   sigma, engine.closedForm))
  }

  /** Pressing play: the step goes back to 0 and the timer is set. Without
      loaded data nothing happens. The source does not itself refuse a
      second start; the play button is disabled while a replay runs. */
  function Start(c: Cursor, loaded: bool): (c': Cursor)
    requires !c.running
    ensures loaded ==> c'.running && c'.index == 0
    ensures !loaded ==> c' == c
  {
    if loaded then Cursor(true, 0) else c
  }

  /** Pressing stop, or the end of the history: the timer is cleared and the
      step is left where it was. */
  function Stop(c: Cursor): (c': Cursor)
    ensures !c'.running
    ensures c'.index == c.index
  {
    Cursor(false, c.index)
  }

  /** Stopping twice is stopping once. */
  lemma StopIdempotent(c: Cursor)
    ensures Stop(Stop(c)) == Stop(c)
  {
  }

  /** One timer callback. With no timer set there is no callback, so nothing
      changes. Past the end of the history the replay stops and shows
      nothing; otherwise it shows the current step and moves to the next. */
  function Tick(c: Cursor, closes: seq<real>, inputs: Inputs, engine: Engine): (r: Step)
    ensures !c.running ==> r == Step(c, None)
    ensures c.running && c.index >= |closes| ==>
              !r.cursor.running && r.cursor.index == c.index && r.shown.None?
    ensures c.running && c.index < |closes| ==>
              && r.cursor == Cursor(true, c.index + 1)
              && r.shown.Some?
              && r.shown.value.step == c.index
              && r.shown.value.price == closes[c.index]
              && r.shown.value == SnapshotAt(closes, c.index, inputs, engine)
  {
    if !c.running then Step(c, None)
    else if c.index >= |closes| then Step(Stop(c), None)
    else Step(Cursor(true, c.index + 1), Some(SnapshotAt(closes, c.index, inputs, engine)))
  }

  /** What a run of callbacks leaves behind: everything shown, in order,
      and the cursor afterwards. */
  datatype Trace = Trace(shown: seq<Snapshot>, cursor: Cursor)

  /** The snapshots a tick adds to the display (zero or one). */
  function Shown(s: Step): seq<Snapshot> {
    match s.shown
    case Some(snap) => [snap]
    case None => []
  }

  /** `n` callbacks of `step` in a row: the final cursor and every snapshot
      shown, in the order shown. */
  function Iterate(step: Cursor -> Step, c: Cursor, n: nat): Trace
    decreases n
  {
    if n == 0 then Trace([], c)
    else
      var s := step(c);
      var rest := Iterate(step, s.cursor, n - 1);
      Trace(Shown(s) + rest.shown, rest.cursor)
  }

  /** Running m + n callbacks is running m, then n more from where they left
      off, whatever one callback does. */
  lemma {:induction false} IterateSplit(step: Cursor -> Step, c: Cursor, m: nat, n: nat)
    ensures Iterate(step, c, m + n)
            == Trace(Iterate(step, c, m).shown + Iterate(step, Iterate(step, c, m).cursor, n).shown,
                     Iterate(step, Iterate(step, c, m).cursor, n).cursor)
    decreases m
  {
    if m > 0 {
      var s := step(c);
      IterateSplit(step, s.cursor, m - 1, n);
      var first := Iterate(step, s.cursor, m - 1);
      var second := Iterate(step, first.cursor, n);
      assert Iterate(step, c, m + n) == Trace(Shown(s) + (first.shown + second.shown), second.cursor);
      assert Shown(s) + (first.shown + second.shown) == (Shown(s) + first.shown) + second.shown;
    }
  }

  /** Each callback shows at most one snapshot, whatever it does. */
  lemma {:induction false} IterateShowsAtMostN(step: Cursor -> Step, c: Cursor, n: nat)
    ensures |Iterate(step, c, n).shown| <= n
    decreases n
  {
    if n > 0 {
      IterateShowsAtMostN(step, step(c).cursor, n - 1);
      assert |Shown(step(c))| <= 1;
    }
  }

  /** A cursor that a callback leaves alone, showing nothing, stays put and
      shows nothing however many callbacks follow. */
  lemma {:induction false} IterateFixedPoint(step: Cursor -> Step, c: Cursor, n: nat)
    ensures step(c) == Step(c, None) ==> Iterate(step, c, n) == Trace([], c)
    decreases n
  {
    if n > 0 && step(c) == Step(c, None) {
      IterateFixedPoint(step, c, n - 1);
      assert Shown(Step(c, None)) == [];
    }
  }

  /** One timer callback of the replay, for fixed inputs. */
  function Ticker(closes: seq<real>, inputs: Inputs, engine: Engine): Cursor -> Step {
    c => Tick(c, closes, inputs, engine)
  }

  /** `n` timer callbacks in a row: the final cursor and every snapshot shown,
      in the order shown. */
  function Run(c: Cursor, closes: seq<real>, inputs: Inputs, engine: Engine, n: nat): Trace {
    Iterate(Ticker(closes, inputs, engine), c, n)
  }

  /** The snapshots for steps `from` up to but excluding `to`, in order. */
  function Snapshots(closes: seq<real>, from: nat, to: nat, inputs: Inputs, engine: Engine): (ss: seq<Snapshot>)
    requires from <= to <= |closes|
    ensures |ss| == to - from
    ensures forall k :: 0 <= k < |ss| ==> ss[k] == SnapshotAt(closes, from + k, inputs, engine)
  {
    seq(to - from, k requires 0 <= k < to - from => SnapshotAt(closes, from + k, inputs, engine))
  }

  /** Each callback shows at most one snapshot. */
  lemma RunShowsAtMostOnePerCallback(c: Cursor, closes: seq<real>, inputs: Inputs,
                                                         engine: Engine, n: nat)
    ensures |Run(c, closes, inputs, engine, n).shown| <= n
  {
    IterateShowsAtMostN(Ticker(closes, inputs, engine), c, n);
  }

  /** A stopped replay stays stopped and shows nothing, however many
      callbacks follow. */
  lemma IdleRunShowsNothing(c: Cursor, closes: seq<real>, inputs: Inputs, engine: Engine, n: nat)
    requires !c.running
    ensures Run(c, closes, inputs, engine, n) == Trace([], c)
  {
    IterateFixedPoint(Ticker(closes, inputs, engine), c, n);
  }

  /** While steps remain, each callback shows the next step: `n` callbacks
      from step `i` show steps i .. i + n - 1 and leave the replay running
      at step i + n. */
  lemma {:induction false} RunShowsNextSteps(c: Cursor, closes: seq<real>, inputs: Inputs, engine: Engine, n: nat)
    requires c.running && c.index + n <= |closes|
    ensures Run(c, closes, inputs, engine, n)
            == Trace(Snapshots(closes, c.index, c.index + n, inputs, engine), Cursor(true, c.index + n))
    decreases n
  {
    if n > 0 {
      var s := Tick(c, closes, inputs, engine);
      RunShowsNextSteps(s.cursor, closes, inputs, engine, n - 1);
      SnapshotsCons(closes, c.index, c.index + n, inputs, engine);
    }
  }

  /** The first of a run of snapshots, then the rest. */
  lemma SnapshotsCons(closes: seq<real>, from: nat, to: nat, inputs: Inputs, engine: Engine)
    requires from < to <= |closes|
    ensures Snapshots(closes, from, to, inputs, engine)
            == [SnapshotAt(closes, from, inputs, engine)] + Snapshots(closes, from + 1, to, inputs, engine)
  {
  }

  /** A replay started on loaded data shows every step 0 .. N - 1 exactly
      once and in order, then stops at step N and shows nothing more, for
      any number of further callbacks. */
  lemma ReplayShowsEveryStepOnce(c: Cursor, closes: seq<real>, inputs: Inputs, engine: Engine, extra: nat)
    requires !c.running
    ensures Run(Start(c, true), closes, inputs, engine, |closes| + 1 + extra)
            == Trace(Snapshots(closes, 0, |closes|, inputs, engine), Cursor(false, |closes|))
  {
    RunSplit(Start(c, true), closes, inputs, engine, |closes|, 1 + extra);
    RunShowsNextSteps(Start(c, true), closes, inputs, engine, |closes|);
    var end := Cursor(true, |closes|);
    RunSplit(end, closes, inputs, engine, 1, extra);
    IdleRunShowsNothing(Cursor(false, |closes|), closes, inputs, engine, extra);
  }

  /** Running m + n callbacks is running m, then n more from where they left off. */
  lemma RunSplit(c: Cursor, closes: seq<real>, inputs: Inputs, engine: Engine, m: nat, n: nat)
    ensures Run(c, closes, inputs, engine, m + n)
            == Trace(Run(c, closes, inputs, engine, m).shown
                     + Run(Run(c, closes, inputs, engine, m).cursor, closes, inputs, engine, n).shown,
                     Run(Run(c, closes, inputs, engine, m).cursor, closes, inputs, engine, n).cursor)
  {
    IterateSplit(Ticker(closes, inputs, engine), c, m, n);
  }

  /** The first of `k` callbacks, then the other `k - 1`. */
  lemma RunUnfold(c: Cursor, closes: seq<real>, inputs: Inputs, engine: Engine, k: nat)
    requires k > 0
    ensures Run(c, closes, inputs, engine, k)
            == Trace(Shown(Tick(c, closes, inputs, engine))
                     + Run(Tick(c, closes, inputs, engine).cursor, closes, inputs, engine, k - 1).shown,
                     Run(Tick(c, closes, inputs, engine).cursor, closes, inputs, engine, k - 1).cursor)
  {
  }

  /** Stopping after `k` steps have been shown: exactly steps 0 .. k - 1 were
      shown, and no later step ever is, however many callbacks follow. */
  lemma StopHaltsReplay(c: Cursor, closes: seq<real>, inputs: Inputs, engine: Engine, k: nat, later: nat)
    requires !c.running && k <= |closes|
    ensures Run(Start(c, true), closes, inputs, engine, k).shown == Snapshots(closes, 0, k, inputs, engine)
    ensures Run(Stop(Run(Start(c, true), closes, inputs, engine, k).cursor), closes, inputs, engine, later).shown == []
  {
    RunShowsNextSteps(Start(c, true), closes, inputs, engine, k);
    IdleRunShowsNothing(Stop(Run(Start(c, true), closes, inputs, engine, k).cursor), closes, inputs, engine, later);
  }

  /** Whether pricing step `i` reaches the closed-form branch: time is left
      and the volatility of the revealed closes fails the test `sigma <= 0`. */
  predicate ReachesClosedForm(closes: seq<real>, i: nat, inputs: Inputs, engine: Engine) {
    i < |closes| && !Degenerate(YearFraction(inputs.days), engine.volatility(Prefix(closes, i)))
  }

  /** One timer callback as the browser is written: its normal CDF calls
      `Math.erfc`, which JavaScript does not define, so pricing on the
      closed-form branch throws. The callback then ends before the step
      advances and before the value is shown. Everywhere else it is `Tick`. */
  function TickAsWritten(c: Cursor, closes: seq<real>, inputs: Inputs, engine: Engine): (r: Step)
    ensures !c.running ==> r == Step(c, None)
    ensures c.running && ReachesClosedForm(closes, c.index, inputs, engine) ==> r == Step(c, None)
    ensures !(c.running && ReachesClosedForm(closes, c.index, inputs, engine)) ==>
              r == Tick(c, closes, inputs, engine)
  {
    if c.running && ReachesClosedForm(closes, c.index, inputs, engine) then Step(c, None)
    else Tick(c, closes, inputs, engine)
  }

  /** One timer callback of the browser as written, for fixed inputs. */
  function TickerAsWritten(closes: seq<real>, inputs: Inputs, engine: Engine): Cursor -> Step {
    c => TickAsWritten(c, closes, inputs, engine)
  }

  /** `n` callbacks of the browser as written. */
  function RunAsWritten(c: Cursor, closes: seq<real>, inputs: Inputs, engine: Engine, n: nat): (t: Trace)
    ensures |t.shown| <= n
    ensures !c.running ==> t == Trace([], c)
  {
    IterateShowsAtMostN(TickerAsWritten(closes, inputs, engine), c, n);
    IterateFixedPoint(TickerAsWritten(closes, inputs, engine), c, n);
    Iterate(TickerAsWritten(closes, inputs, engine), c, n)
  }

  /** As written, a replay that reaches a step priced by the closed form is
      stuck there: however many callbacks follow, the step never advances and
      nothing more is shown. */
  lemma StuckReplayShowsNothing(c: Cursor, closes: seq<real>, inputs: Inputs, engine: Engine, n: nat)
    requires c.running && ReachesClosedForm(closes, c.index, inputs, engine)
    ensures RunAsWritten(c, closes, inputs, engine, n) == Trace([], c)
  {
    IterateFixedPoint(TickerAsWritten(closes, inputs, engine), c, n);
  }

  /** Volatility of a revealed history as the browser computes it, for the
      example below: −0 (at most zero) for a single close, and for more
      closes a value that fails the test `sigma <= 0`, as NaN does for two. */
  function ExampleEngine(): Engine {
    Engine(prefix => if |prefix| < 2 then 0.0 else 0.2, (kind, spot, strike, years, sigma) => 0.0)
  }

  /** Two closes and thirty days to expiry: as written, the replay shows step
      0 (priced on the intrinsic branch), then sticks at step 1 for every
      further callback; with a closed form that returns it shows both steps
      and stops. */
  lemma ErfcReplayExample(n: nat)
    ensures RunAsWritten(Start(Cursor(false, 0), true), [100.0, 101.0], Inputs(Call, 100.0, 30),
                         ExampleEngine(), 2 + n)
            == Trace([SnapshotAt([100.0, 101.0], 0, Inputs(Call, 100.0, 30), ExampleEngine())], Cursor(true, 1))
    ensures Run(Start(Cursor(false, 0), true), [100.0, 101.0], Inputs(Call, 100.0, 30), ExampleEngine(), 3 + n)
            == Trace(Snapshots([100.0, 101.0], 0, 2, Inputs(Call, 100.0, 30), ExampleEngine()), Cursor(false, 2))
  {
    var closes, inputs, engine := [100.0, 101.0], Inputs(Call, 100.0, 30), ExampleEngine();
    var first := TickAsWritten(Cursor(true, 0), closes, inputs, engine);
    assert engine.volatility(Prefix(closes, 0)) == 0.0;
    assert first == Step(Cursor(true, 1), Some(SnapshotAt(closes, 0, inputs, engine)));
    assert engine.volatility(Prefix(closes, 1)) == 0.2;
    assert YearFraction(30) > 0.0;
    StuckReplayShowsNothing(Cursor(true, 1), closes, inputs, engine, 1 + n);
    ReplayShowsEveryStepOnce(Cursor(false, 0), closes, inputs, engine, n);
  }
}
