/**
 * The moving-average crossover strategy of one parameter combination, replayed
 * over a price series as a two-state machine.
 *
 * Scanning: from a start index, look for the first candle i at which the fast
 * moving average crosses the slow one between candles i and i+1; open a
 * position at the open of candle i+2 and hold it from there.
 * Holding: from the entry candle on, look for the first candle whose range
 * reaches the stop-loss or the take-profit price (stop-loss tested first),
 * close there, and scan again from the next candle. A position still open
 * when the scan reaches the last candle closes at that candle's close.
 *
 * This module states the behaviour as functions; the class in module
 * Strategy carries it out step by step, as the back tester does.
 */
module Simulator {
  import opened Base
  import opened Numerics
  import opened Grid

  /**
   * One candle of the series: timestamp, prices and the precomputed moving
   * averages keyed by period.
   */
  datatype Candle = Candle(timestamp: int, open: real, high: real, low: real, close: real,
                           ma: map<int, real>)

  datatype Direction = Short | Long

  /**
   * A position as the back tester records it: opened with a time and price,
   * then completed once with its close time, close price and profit rate.
   */
  datatype Position =
    | Opened(direction: Direction, openTime: int, openPrice: real)
    | Closed(direction: Direction, openTime: int, openPrice: real,
             closeTime: int, closePrice: real, pnl: real)

  /**
   * How a run ends: it completes and its results are loaded, or it stops on an
   * index past the end of the series, in which case nothing is loaded. Both
   * carry the positions taken so far, oldest first.
   */
  datatype Outcome = Completed(log: seq<Position>) | Crashed(log: seq<Position>)

  /** The series carries both moving averages the combination compares, on every candle. */
  predicate Carries(series: seq<Candle>, p: Params)
  {
    forall k :: 0 <= k < |series| ==> p.fastMa in series[k].ma && p.slowMa in series[k].ma
  }

  /** Entry prices are positive (the unrealised profit divides by them). */
  predicate PositiveOpens(series: seq<Candle>)
  {
    forall k :: 0 <= k < |series| ==> series[k].open > 0.0
  }

  predicate Tradable(series: seq<Candle>, p: Params)
  {
    Carries(series, p) && PositiveOpens(series)
  }

  /** Timestamps strictly increase along the series. */
  predicate Chronicled(series: seq<Candle>)
  {
    forall i, j :: 0 <= i < j < |series| ==> series[i].timestamp < series[j].timestamp
  }

  function StopLossRate(p: Params): real
  {
    p.stopLossPct as real / 100.0
  }

  function TakeProfitRate(p: Params): real
  {
    p.takeProfitPct as real / 100.0
  }

  // ---------------------------------------------------------------------
  // Scanning

  /**
   * The signal between candles i and i+1: fast above slow, then fast below
   * slow opens a short; fast below, then above opens a long. The short test
   * comes first; equal averages never signal.
   */
  function Signal(series: seq<Candle>, p: Params, i: int): (r: Option<Direction>)
    requires Carries(series, p) && 0 <= i < |series| - 1
    ensures r.Some? ==> series[i].ma[p.fastMa] != series[i].ma[p.slowMa]
                        && series[i + 1].ma[p.fastMa] != series[i + 1].ma[p.slowMa]
    ensures r == Some(Short) <==> series[i].ma[p.fastMa] > series[i].ma[p.slowMa]
                                  && series[i + 1].ma[p.fastMa] < series[i + 1].ma[p.slowMa]
    ensures r == Some(Long) <==> series[i].ma[p.fastMa] < series[i].ma[p.slowMa]
                                 && series[i + 1].ma[p.fastMa] > series[i + 1].ma[p.slowMa]
  {
    var fast, slow := series[i].ma[p.fastMa], series[i].ma[p.slowMa];
    var fastNext, slowNext := series[i + 1].ma[p.fastMa], series[i + 1].ma[p.slowMa];
    if fast > slow && fastNext < slowNext then Some(Short)
    else if fast < slow && fastNext > slowNext then Some(Long)
    else None
  }

  /** The first index at or after start with a signal, if any. */
  function FirstSignal(series: seq<Candle>, p: Params, start: int): (r: Option<int>)
    requires Carries(series, p) && 0 <= start
    decreases |series| - start
    ensures r.None? <==> forall k :: start <= k < |series| - 1 ==> Signal(series, p, k).None?
    ensures r.Some? ==> && start <= r.value < |series| - 1
                        && Signal(series, p, r.value).Some?
                        && forall k :: start <= k < r.value ==> Signal(series, p, k).None?
  {
    if start >= |series| - 1 then None
    else if Signal(series, p, start).Some? then Some(start)
    else FirstSignal(series, p, start + 1)
  }

  // ---------------------------------------------------------------------
  // Holding

  /** The stop-loss price of a position entered at price, on the 0.5 price grid. */
  function StopPrice(d: Direction, price: real, p: Params): (r: real)
    ensures (r * 2.0).Floor as real == r * 2.0
    ensures d == Short ==> Abs(r - price * (1.0 + StopLossRate(p))) <= 0.25
    ensures d == Long ==> Abs(r - price * (1.0 - StopLossRate(p))) <= 0.25
  {
    if d == Short then Tick(price * (1.0 + StopLossRate(p)))
    else Tick(price * (1.0 - StopLossRate(p)))
  }

  /** The take-profit price of a position entered at price, on the 0.5 price grid. */
  function TargetPrice(d: Direction, price: real, p: Params): (r: real)
    ensures (r * 2.0).Floor as real == r * 2.0
    ensures d == Short ==> Abs(r - price * (1.0 - TakeProfitRate(p))) <= 0.25
    ensures d == Long ==> Abs(r - price * (1.0 + TakeProfitRate(p))) <= 0.25
  {
    if d == Short then Tick(price * (1.0 - TakeProfitRate(p)))
    else Tick(price * (1.0 + TakeProfitRate(p)))
  }

  /** The candle reaches the stop: up to it for a short, down to it for a long. */
  predicate StopHit(c: Candle, d: Direction, stop: real)
  {
    if d == Short then c.high >= stop else c.low <= stop
  }

  /** The candle reaches the target: down to it for a short, up to it for a long. */
  predicate TargetHit(c: Candle, d: Direction, target: real)
  {
    if d == Short then c.low <= target else c.high >= target
  }

  predicate Triggers(c: Candle, d: Direction, stop: real, target: real)
  {
    StopHit(c, d, stop) || TargetHit(c, d, target)
  }

  /**
   * The first index in [start, |series| - 1) whose candle reaches either
   * price, if any. The last candle itself is never examined.
   */
  function FirstTrigger(series: seq<Candle>, d: Direction, stop: real, target: real, start: int)
    : (r: Option<int>)
    requires 0 <= start
    decreases |series| - start
    ensures r.None? <==> forall k {:trigger Triggers(series[k], d, stop, target)} :: start <= k < |series| - 1 ==> !Triggers(series[k], d, stop, target)
    ensures r.Some? ==> && start <= r.value < |series| - 1
                        && Triggers(series[r.value], d, stop, target)
                        && forall k {:trigger Triggers(series[k], d, stop, target)} :: start <= k < r.value ==> !Triggers(series[k], d, stop, target)
  {
    if start >= |series| - 1 then None
    else if Triggers(series[start], d, stop, target) then Some(start)
    else FirstTrigger(series, d, stop, target, start + 1)
  }

  /**
   * Closes position q on candle c, which reaches a trigger price. The stop is
   * tested first, so a candle that reaches both prices closes at the stop.
   * The recorded profit is the configured rate, not the price difference.
   */
  function CloseOnTrigger(q: Position, c: Candle, p: Params): (r: Position)
    requires q.Opened?
    requires Triggers(c, q.direction, StopPrice(q.direction, q.openPrice, p),
                      TargetPrice(q.direction, q.openPrice, p))
    ensures r.Closed? && r.direction == q.direction
    ensures r.openTime == q.openTime && r.openPrice == q.openPrice && r.closeTime == c.timestamp
    ensures StopHit(c, q.direction, StopPrice(q.direction, q.openPrice, p)) ==>
              r.closePrice == StopPrice(q.direction, q.openPrice, p) && r.pnl == -StopLossRate(p)
    ensures !StopHit(c, q.direction, StopPrice(q.direction, q.openPrice, p)) ==>
              r.closePrice == TargetPrice(q.direction, q.openPrice, p) && r.pnl == TakeProfitRate(p)
  {
    var stop := StopPrice(q.direction, q.openPrice, p);
    if StopHit(c, q.direction, stop) then
      Closed(q.direction, q.openTime, q.openPrice, c.timestamp, stop, -StopLossRate(p))
    else
      Closed(q.direction, q.openTime, q.openPrice, c.timestamp,
             TargetPrice(q.direction, q.openPrice, p), TakeProfitRate(p))
  }

  /**
   * The unrealised profit rate of a position entered at entry and valued at
   * exit, rounded to four decimal places.
   */
  function Unrealised(d: Direction, entry: real, exit: real): (r: real)
    requires entry > 0.0
    ensures d == Short ==> (exit <= entry ==> r >= 0.0) && (exit >= entry ==> r <= 0.0)
    ensures d == Long ==> (exit >= entry ==> r >= 0.0) && (exit <= entry ==> r <= 0.0)
    ensures d == Short ==> Abs(r - (entry - exit) / entry) <= 0.00005
    ensures d == Long ==> Abs(r - (exit - entry) / entry) <= 0.00005
  {
    if d == Short then Round4((entry - exit) / entry) else Round4((exit - entry) / entry)
  }

  // ---------------------------------------------------------------------
  // The run

  function Prepend(q: Position, o: Outcome): (r: Outcome)
  {
    match o
    case Completed(log) => Completed([q] + log)
    case Crashed(log) => Crashed([q] + log)
  }

  /**
   * Scanning from index start. A signal at i = |series| - 2 asks for candle
   * |series|, past the end: the run stops there, crashed.
   */
  function Scan(series: seq<Candle>, p: Params, start: int): (o: Outcome)
    requires Tradable(series, p) && 0 <= start <= |series|
    ensures forall k :: 0 <= k < |o.log| ==> o.log[k].Closed?
    decreases |series| - start, 1
  {
    match FirstSignal(series, p, start)
    case None => Completed([])
    case Some(i) =>
      if i + 2 == |series| then Crashed([])
      else
        var entry := series[i + 2];
        Hold(series, p, Opened(Signal(series, p, i).value, entry.timestamp, entry.open), i + 2)
  }

  /**
   * Holding position q, watching from index start. The run goes on with q
   * closed, as it was entered, and every later position is closed too.
   */
  function Hold(series: seq<Candle>, p: Params, q: Position, start: int): (o: Outcome)
    requires Tradable(series, p) && q.Opened? && q.openPrice > 0.0 && 0 <= start < |series|
    ensures |o.log| >= 1 && o.log[0].direction == q.direction
    ensures o.log[0].openTime == q.openTime && o.log[0].openPrice == q.openPrice
    ensures forall k :: 0 <= k < |o.log| ==> o.log[k].Closed?
    decreases |series| - start, 0
  {
    var stop := StopPrice(q.direction, q.openPrice, p);
    var target := TargetPrice(q.direction, q.openPrice, p);
    match FirstTrigger(series, q.direction, stop, target, start)
    case Some(j) =>
      var rest := Scan(series, p, j + 1);
      var o := Prepend(CloseOnTrigger(q, series[j], p), rest);
      assert forall k :: 1 <= k < |o.log| ==> o.log[k] == rest.log[k - 1];
      o
    case None =>
      var last := series[|series| - 1];
      Completed([Closed(q.direction, q.openTime, q.openPrice, last.timestamp, last.close,
                        Unrealised(q.direction, q.openPrice, last.close))])
  }

  /**
   * The whole run of one combination: scanning from the first candle. Every
   * position closes at its stop or target with the configured rate, except
   * possibly the last of a completed run, which closes at the last candle;
   * each takes at least three candles; the run crashes only when the last
   * two candles signal.
   */
  function Simulate(series: seq<Candle>, p: Params): (o: Outcome)
    requires Tradable(series, p)
    ensures Settled(o, series, p)
    ensures 3 * |o.log| <= |series|
    ensures o.Crashed? ==> 2 <= |series| && Signal(series, p, |series| - 2).Some?
  {
    ScanSettled(series, p, 0);
    ScanTradeCount(series, p, 0);
    ScanCrashes(series, p, 0);
    Scan(series, p, 0)
  }

  /**
   * A scan from a signal at i: it stops when candle i + 2 is missing, and
   * otherwise holds the position entered at the open of candle i + 2.
   */
  lemma ScanSignalled(series: seq<Candle>, p: Params, i: int)
    requires Tradable(series, p) && 0 <= i < |series| - 1 && Signal(series, p, i).Some?
    ensures i + 2 == |series| ==> Scan(series, p, i) == Crashed([])
    ensures i + 2 < |series| ==>
      Scan(series, p, i) == Hold(series, p, Opened(Signal(series, p, i).value, series[i + 2].timestamp,
                                                   series[i + 2].open), i + 2)
  {
  }

  /** A scan from start with no signal before i runs as the scan from i. */
  lemma ScanFrom(series: seq<Candle>, p: Params, start: int, i: int)
    requires Tradable(series, p) && 0 <= start <= i <= |series|
    requires forall k :: start <= k < i && k < |series| - 1 ==> Signal(series, p, k).None?
    requires i < |series| - 1 ==> Signal(series, p, i).Some?
    ensures Scan(series, p, start) == Scan(series, p, i)
  {
  }

  /**
   * Holding q from start, when no candle from start to i - 1 reaches a
   * trigger and candle i is the last or reaches one.
   */
  lemma HoldUntil(series: seq<Candle>, p: Params, q: Position, start: int, i: int)
    requires Tradable(series, p) && q.Opened? && q.openPrice > 0.0 && 0 <= start <= i < |series|
    requires var stop, target := StopPrice(q.direction, q.openPrice, p), TargetPrice(q.direction, q.openPrice, p);
      && (forall k {:trigger Triggers(series[k], q.direction, stop, target)} :: start <= k < i ==> !Triggers(series[k], q.direction, stop, target))
      && (i < |series| - 1 ==> Triggers(series[i], q.direction, stop, target))
    ensures i < |series| - 1 ==>
      Hold(series, p, q, start) == Prepend(CloseOnTrigger(q, series[i], p), Scan(series, p, i + 1))
    ensures i == |series| - 1 ==>
      Hold(series, p, q, start)
        == Completed([Closed(q.direction, q.openTime, q.openPrice, series[i].timestamp, series[i].close,
                             Unrealised(q.direction, q.openPrice, series[i].close))])
  {
  }

  // ---------------------------------------------------------------------
  // What every run satisfies

  /**
   * Every position is closed and closes no earlier than it opens, and each
   * next position opens strictly after the previous one closed: at most one
   * position is open at a time.
   */
  predicate Chronological(log: seq<Position>)
  {
    && (forall k :: 0 <= k < |log| ==> log[k].Closed? && log[k].openTime <= log[k].closeTime)
    && (forall k :: 0 <= k < |log| - 1 ==> log[k].Closed? && log[k].closeTime < log[k + 1].openTime)
  }

  lemma {:induction false} ScanChronological(series: seq<Candle>, p: Params, start: int)
    requires Tradable(series, p) && Chronicled(series) && 0 <= start <= |series|
    ensures Chronological(Scan(series, p, start).log)
    ensures forall k :: 0 <= k < |Scan(series, p, start).log| ==>
              start < |series| && series[start].timestamp < Scan(series, p, start).log[k].openTime
    decreases |series| - start, 1
  {
    match FirstSignal(series, p, start)
    case None =>
    case Some(i) =>
      if i + 2 < |series| {
        var entry := series[i + 2];
        HoldChronological(series, p, Opened(Signal(series, p, i).value, entry.timestamp, entry.open), i + 2);
      }
  }

  lemma {:induction false} HoldChronological(series: seq<Candle>, p: Params, q: Position, start: int)
    requires Tradable(series, p) && Chronicled(series)
    requires q.Opened? && q.openPrice > 0.0 && 0 <= start < |series|
    requires q.openTime <= series[start].timestamp
    ensures var log := Hold(series, p, q, start).log;
      && |log| >= 1 && log[0].openTime == q.openTime && Chronological(log)
      && forall k :: 0 <= k < |log| ==> q.openTime <= log[k].openTime
    decreases |series| - start, 0
  {
    var stop := StopPrice(q.direction, q.openPrice, p);
    var target := TargetPrice(q.direction, q.openPrice, p);
    match FirstTrigger(series, q.direction, stop, target, start)
    case Some(j) =>
      ScanChronological(series, p, j + 1);
      HoldUntil(series, p, q, start, j);
      var c := CloseOnTrigger(q, series[j], p);
      var rest := Scan(series, p, j + 1).log;
      var log := [c] + rest;
      assert Hold(series, p, q, start).log == log;
      assert series[start].timestamp <= series[j].timestamp < series[j + 1].timestamp;
      forall k | 0 <= k < |log| - 1
        ensures log[k].Closed? && log[k].closeTime < log[k + 1].openTime
      {
        if k > 0 {
          assert log[k] == rest[k - 1] && log[k + 1] == rest[k];
        }
      }
    case None =>
  }

  /** Closed at its stop or its target price, with exactly the configured rate as profit. */
  predicate ClosedOnTrigger(q: Position, p: Params)
  {
    && q.Closed?
    && ((q.closePrice == StopPrice(q.direction, q.openPrice, p) && q.pnl == -StopLossRate(p))
        || (q.closePrice == TargetPrice(q.direction, q.openPrice, p) && q.pnl == TakeProfitRate(p)))
  }

  /** Closed at the close of the last candle, with its unrealised profit. */
  predicate ClosedAtEnd(q: Position, series: seq<Candle>)
  {
    && q.Closed? && |series| > 0 && q.openPrice > 0.0
    && q.closeTime == series[|series| - 1].timestamp
    && q.closePrice == series[|series| - 1].close
    && q.pnl == Unrealised(q.direction, q.openPrice, series[|series| - 1].close)
  }

  /**
   * Every position closed on a trigger, except possibly the last position
   * of a completed run, which may instead be closed at the end of the series.
   */
  predicate Settled(o: Outcome, series: seq<Candle>, p: Params)
  {
    forall k :: 0 <= k < |o.log| ==>
      ClosedOnTrigger(o.log[k], p) || (o.Completed? && k == |o.log| - 1 && ClosedAtEnd(o.log[k], series))
  }

  lemma {:induction false} ScanSettled(series: seq<Candle>, p: Params, start: int)
    requires Tradable(series, p) && 0 <= start <= |series|
    ensures Settled(Scan(series, p, start), series, p)
    decreases |series| - start, 1
  {
    match FirstSignal(series, p, start)
    case None =>
    case Some(i) =>
      if i + 2 < |series| {
        var entry := series[i + 2];
        HoldSettled(series, p, Opened(Signal(series, p, i).value, entry.timestamp, entry.open), i + 2);
      }
  }

  lemma {:induction false} HoldSettled(series: seq<Candle>, p: Params, q: Position, start: int)
    requires Tradable(series, p) && q.Opened? && q.openPrice > 0.0 && 0 <= start < |series|
    ensures Settled(Hold(series, p, q, start), series, p)
    decreases |series| - start, 0
  {
    var stop := StopPrice(q.direction, q.openPrice, p);
    var target := TargetPrice(q.direction, q.openPrice, p);
    match FirstTrigger(series, q.direction, stop, target, start)
    case Some(j) =>
      ScanSettled(series, p, j + 1);
      var c := CloseOnTrigger(q, series[j], p);
      var rest := Scan(series, p, j + 1);
      var o := Hold(series, p, q, start);
      assert o == Prepend(c, rest);
      forall k | 0 <= k < |o.log|
        ensures ClosedOnTrigger(o.log[k], p) || (o.Completed? && k == |o.log| - 1 && ClosedAtEnd(o.log[k], series))
      {
        if k > 0 {
          assert o.log[k] == rest.log[k - 1];
        }
      }
    case None =>
  }

  /**
   * A run stops on the index past the end only when the last two candles
   * signal; a series whose last two candles do not signal always completes.
   */
  lemma {:induction false} ScanCrashes(series: seq<Candle>, p: Params, start: int)
    requires Tradable(series, p) && 0 <= start <= |series|
    ensures Scan(series, p, start).Crashed? ==> 2 <= |series| && Signal(series, p, |series| - 2).Some?
    decreases |series| - start, 1
  {
    match FirstSignal(series, p, start)
    case None =>
    case Some(i) =>
      if i + 2 < |series| {
        var entry := series[i + 2];
        HoldCrashes(series, p, Opened(Signal(series, p, i).value, entry.timestamp, entry.open), i + 2);
      }
  }

  lemma {:induction false} HoldCrashes(series: seq<Candle>, p: Params, q: Position, start: int)
    requires Tradable(series, p) && q.Opened? && q.openPrice > 0.0 && 0 <= start < |series|
    ensures Hold(series, p, q, start).Crashed? ==> 2 <= |series| && Signal(series, p, |series| - 2).Some?
    decreases |series| - start, 0
  {
    var stop := StopPrice(q.direction, q.openPrice, p);
    var target := TargetPrice(q.direction, q.openPrice, p);
    match FirstTrigger(series, q.direction, stop, target, start)
    case Some(j) => ScanCrashes(series, p, j + 1);
    case None =>
  }

  /**
   * Each position uses up at least three candles (two to signal, one to
   * enter), so scanning from start takes at most (|series| - start) / 3
   * positions; a series of fewer than three candles takes none.
   */
  lemma {:induction false} ScanTradeCount(series: seq<Candle>, p: Params, start: int)
    requires Tradable(series, p) && 0 <= start <= |series|
    ensures 3 * |Scan(series, p, start).log| <= |series| - start
    decreases |series| - start, 1
  {
    match FirstSignal(series, p, start)
    case None =>
    case Some(i) =>
      if i + 2 < |series| {
        var entry := series[i + 2];
        HoldTradeCount(series, p, Opened(Signal(series, p, i).value, entry.timestamp, entry.open), i + 2);
      }
  }

  lemma {:induction false} HoldTradeCount(series: seq<Candle>, p: Params, q: Position, start: int)
    requires Tradable(series, p) && q.Opened? && q.openPrice > 0.0 && 0 <= start < |series|
    ensures 3 * |Hold(series, p, q, start).log| <= |series| - start + 2
    decreases |series| - start, 0
  {
    var stop := StopPrice(q.direction, q.openPrice, p);
    var target := TargetPrice(q.direction, q.openPrice, p);
    match FirstTrigger(series, q.direction, stop, target, start)
    case Some(j) => ScanTradeCount(series, p, j + 1);
    case None =>
  }

  /**
   * The first position of a scan is entered at the open of candle i + 2,
   * where i is the first signal, in the direction of that signal.
   */
  lemma FirstEntry(series: seq<Candle>, p: Params, start: int)
    requires Tradable(series, p) && 0 <= start <= |series|
    requires Scan(series, p, start).log != []
    ensures FirstSignal(series, p, start).Some?
    ensures var i := FirstSignal(series, p, start).value;
      && i + 2 < |series|
      && Scan(series, p, start).log[0].direction == Signal(series, p, i).value
      && Scan(series, p, start).log[0].openTime == series[i + 2].timestamp
      && Scan(series, p, start).log[0].openPrice == series[i + 2].open
  {
    var i := FirstSignal(series, p, start).value;
    ScanFrom(series, p, start, i);
    ScanSignalled(series, p, i);
  }
}
