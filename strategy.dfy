/**
 * Test_Strategy: one parameter combination run over the series, step by
 * step. The object keeps the short and the long positions in two lists that
 * grow as the run goes; opening appends a position, closing completes the
 * last one in place. Scanning and holding call each other until the series
 * is used up, then the results are loaded.
 */
module Strategy {
  import opened Base
  import opened Numerics
  import opened Sorting
  import opened Grid
  import opened Simulator

  /** The record load_results computes for a run (before it is written away). */
  datatype StrategyResult = StrategyResult(
    startTime: int, endTime: int, params: Params,
    totalPnl: real, totalWins: nat, positions: seq<Position>)

  /** A position's profit rate; a position that was never completed has none. */
  function PnlOf(q: Position): real
  {
    if q.Closed? then q.pnl else 0.0
  }

  function SumPnl(s: seq<Position>): real
  {
    if s == [] then 0.0 else PnlOf(s[0]) + SumPnl(s[1..])
  }

  predicate IsWin(q: Position)
  {
    q.Closed? && q.pnl > 0.0
  }

  /** The number of positions with a positive profit. */
  function Wins(s: seq<Position>): nat
  {
    if s == [] then 0 else (if IsWin(s[0]) then 1 else 0) + Wins(s[1..])
  }

  /** The positions of one direction, in the order they were taken. */
  function OfDirection(log: seq<Position>, d: Direction): (r: seq<Position>)
    ensures forall q :: q in r <==> q in log && q.direction == d
    ensures |r| <= |log|
  {
    if log == [] then []
    else (if log[0].direction == d then [log[0]] else []) + OfDirection(log[1..], d)
  }

  function TotalPnl(shorts: seq<Position>, longs: seq<Position>): real
  {
    SumPnl(shorts) + SumPnl(longs)
  }

  function TotalWins(shorts: seq<Position>, longs: seq<Position>): nat
  {
    Wins(shorts) + Wins(longs)
  }

  function OpenTime(q: Position): real
  {
    q.openTime as real
  }

  /** The list ps of direction d without its pending position, if that is the direction being closed. */
  function Unsettled(ps: seq<Position>, d: Direction, closing: Direction): seq<Position>
  {
    if d == closing && ps != [] then ps[..|ps| - 1] else ps
  }

  /** The list ps of direction d once the pending position of direction closing is completed as closed. */
  function Settle(ps: seq<Position>, d: Direction, closing: Direction, closed: Position): seq<Position>
  {
    Unsettled(ps, d, closing) + (if closing == d then [closed] else [])
  }

  /**
   * What load_results computes from the two position lists: the first and
   * last timestamp of the series, the total profit rounded to two places,
   * the number of winning positions, and both lists merged by open time.
   */
  function Summary(series: seq<Candle>, p: Params, shorts: seq<Position>, longs: seq<Position>)
    : (r: StrategyResult)
    requires |series| > 0
    ensures r.startTime == series[0].timestamp && r.endTime == series[|series| - 1].timestamp
    ensures Abs(r.totalPnl - TotalPnl(shorts, longs)) <= 0.005
    ensures (r.totalPnl * 100.0).Floor as real == r.totalPnl * 100.0
    ensures r.totalWins == TotalWins(shorts, longs)
    ensures multiset(r.positions) == multiset(shorts + longs)
    ensures SortedBy(r.positions, OpenTime)
  {
    StrategyResult(series[0].timestamp, series[|series| - 1].timestamp, p,
                   Round2(TotalPnl(shorts, longs)), TotalWins(shorts, longs),
                   SortBy(shorts + longs, OpenTime))
  }

  // ---------------------------------------------------------------------
  // Aggregation lemmas

  /** The record load_results assembles from the two tallies is the summary of the two lists. */
  lemma SummaryOfTallies(series: seq<Candle>, p: Params, shorts: seq<Position>, longs: seq<Position>,
                         total: real, wins: nat)
    requires |series| > 0
    requires total == TotalPnl(shorts, longs) && wins == TotalWins(shorts, longs)
    ensures Summary(series, p, shorts, longs)
         == StrategyResult(series[0].timestamp, series[|series| - 1].timestamp, p,
                           Round2(total), wins, SortBy(shorts + longs, OpenTime))
  {
  }

  /** Adding one more position to the running sums, as the loops of load_results do. */
  lemma {:induction false} SumsSnoc(s: seq<Position>, q: Position)
    ensures SumPnl(s + [q]) == SumPnl(s) + PnlOf(q)
    ensures Wins(s + [q]) == Wins(s) + (if IsWin(q) then 1 else 0)
  {
    if s == [] {
      assert [q][1..] == [];
    } else {
      assert (s + [q])[1..] == s[1..] + [q];
      SumsSnoc(s[1..], q);
    }
  }

  lemma OfDirectionCons(q: Position, rest: seq<Position>, d: Direction)
    ensures OfDirection([q] + rest, d) == (if q.direction == d then [q] else []) + OfDirection(rest, d)
  {
    assert ([q] + rest)[1..] == rest;
  }

  lemma SumsCons(q: Position, rest: seq<Position>)
    ensures SumPnl([q] + rest) == PnlOf(q) + SumPnl(rest)
    ensures Wins([q] + rest) == (if IsWin(q) then 1 else 0) + Wins(rest)
  {
    assert ([q] + rest)[1..] == rest;
  }

  /**
   * The list of direction d once the pending position of direction closing
   * has been completed as closed (ps0 to ps1) and the positions of the rest
   * of the run have been appended (ps1 to ps2): the list before, settled with
   * the whole log that starts with closed.
   */
  lemma SettledThenScanned(ps0: seq<Position>, ps1: seq<Position>, ps2: seq<Position>, d: Direction,
                           closed: Position, rest: seq<Position>, log: seq<Position>)
    requires ps1 == Settle(ps0, d, closed.direction, closed)
    requires ps2 == ps1 + OfDirection(rest, d)
    requires log == [closed] + rest
    ensures ps2 == Unsettled(ps0, d, closed.direction) + OfDirection(log, d)
  {
    OfDirectionCons(closed, rest, d);
    var before := Unsettled(ps0, d, closed.direction);
    if closed.direction == d {
      assert before + [closed] + OfDirection(rest, d) == before + ([closed] + OfDirection(rest, d));
    } else {
      assert [] + OfDirection(rest, d) == OfDirection(rest, d);
      assert before + [] == before;
    }
  }

  /**
   * Splitting a run's positions by direction loses nothing: the two lists
   * together hold the same positions, the same total profit and the same
   * number of wins.
   */
  lemma SplitByDirection(log: seq<Position>)
    ensures TotalPnl(OfDirection(log, Short), OfDirection(log, Long)) == SumPnl(log)
    ensures TotalWins(OfDirection(log, Short), OfDirection(log, Long)) == Wins(log)
    ensures multiset(OfDirection(log, Short) + OfDirection(log, Long)) == multiset(log)
  {
    SplitSums(log);
    SplitPositions(log);
  }

  lemma {:induction false} SplitSums(log: seq<Position>)
    ensures SumPnl(OfDirection(log, Short)) + SumPnl(OfDirection(log, Long)) == SumPnl(log)
    ensures Wins(OfDirection(log, Short)) + Wins(OfDirection(log, Long)) == Wins(log)
  {
    if log != [] {
      var q, rest := log[0], log[1..];
      assert log == [q] + rest;
      SplitSums(rest);
      OfDirectionCons(q, rest, Short);
      OfDirectionCons(q, rest, Long);
      SumsCons(q, rest);
      var shorts, longs := OfDirection(rest, Short), OfDirection(rest, Long);
      assert [] + shorts == shorts && [] + longs == longs;
      if q.direction == Short {
        assert OfDirection(log, Short) == [q] + shorts && OfDirection(log, Long) == longs;
        SumsCons(q, shorts);
      } else {
        assert OfDirection(log, Short) == shorts && OfDirection(log, Long) == [q] + longs;
        SumsCons(q, longs);
      }
    }
  }

  lemma {:induction false} SplitPositions(log: seq<Position>)
    ensures multiset(OfDirection(log, Short) + OfDirection(log, Long)) == multiset(log)
  {
    if log != [] {
      var q, rest := log[0], log[1..];
      assert log == [q] + rest;
      SplitPositions(rest);
      OfDirectionCons(q, rest, Short);
      OfDirectionCons(q, rest, Long);
    }
  }

  /** In a chronological log the opening times strictly increase. */
  lemma {:induction false} ChronologicalOpensAscending(log: seq<Position>)
    requires Chronological(log)
    ensures StrictlySortedBy(log, OpenTime)
  {
    if |log| > 1 {
      var init := log[..|log| - 1];
      assert Chronological(init) by {
        forall k | 0 <= k < |init| - 1
          ensures init[k].Closed? && init[k].closeTime < init[k + 1].openTime
        {
          assert init[k] == log[k] && init[k + 1] == log[k + 1];
        }
      }
      ChronologicalOpensAscending(init);
      forall i, j | 0 <= i < j < |log| ensures OpenTime(log[i]) < OpenTime(log[j]) {
        if j < |log| - 1 {
          assert log[i] == init[i] && log[j] == init[j];
        } else {
          var n := |log| - 2;
          assert log[n].openTime <= log[n].closeTime < log[n + 1].openTime;
          if i < n {
            assert log[i] == init[i] && log[n] == init[n];
          }
        }
      }
    }
  }

  /**
   * What load_results records for a completed run is the run itself: the
   * merge of the short and the long lists by open time gives back every
   * position in the order taken, the total is the rounded sum of all their
   * profits and the wins are counted over all of them.
   */
  lemma ResultOfRun(series: seq<Candle>, p: Params)
    requires Tradable(series, p) && Chronicled(series) && |series| > 0
    ensures var log := Simulate(series, p).log;
      Summary(series, p, OfDirection(log, Short), OfDirection(log, Long))
        == StrategyResult(series[0].timestamp, series[|series| - 1].timestamp, p,
                          Round2(SumPnl(log)), Wins(log), log)
  {
    var log := Simulate(series, p).log;
    var shorts, longs := OfDirection(log, Short), OfDirection(log, Long);
    SplitByDirection(log);
    ScanChronological(series, p, 0);
    ChronologicalOpensAscending(log);
    SortedPermutationUnique(SortBy(shorts + longs, OpenTime), log, OpenTime);
  }

  /**
   * One loop of load_results: add up the profit of every completed position
   * and count those with a positive profit.
   */
  method Tally(ps: seq<Position>) returns (pnl: real, wins: nat)
    ensures pnl == SumPnl(ps) && wins == Wins(ps)
  {
    pnl, wins := 0.0, 0;
    for x := 0 to |ps|
      invariant pnl == SumPnl(ps[..x]) && wins == Wins(ps[..x])
    {
      var q := ps[x];
      assert ps[..x + 1] == ps[..x] + [q];
      SumsSnoc(ps[..x], q);
      if q.Closed? {
        pnl := pnl + q.pnl;
        if q.pnl > 0.0 {
          wins := wins + 1;
        }
      }
    }
    assert ps[..|ps|] == ps;
  }

  // ---------------------------------------------------------------------
  // The object

  class TestStrategy {
    const series: seq<Candle>
    const params: Params
    var shortPositions: seq<Position>
    var longPositions: seq<Position>
    /** What load_results computed, if it ran to the end. */
    var result: Option<StrategyResult>

    function Positions(d: Direction): seq<Position>
      reads this
    {
      if d == Short then shortPositions else longPositions
    }

    /** The last position of direction d is open, waiting to be closed. */
    predicate Pending(d: Direction)
      reads this
    {
      var ps := Positions(d);
      ps != [] && ps[|ps| - 1].Opened? && ps[|ps| - 1].direction == d && ps[|ps| - 1].openPrice > 0.0
    }

    function Last(d: Direction): Position
      reads this
      requires Positions(d) != []
    {
      Positions(d)[|Positions(d)| - 1]
    }

    /** Creating the object runs the whole test, scanning from the first candle. */
    constructor (series: seq<Candle>, params: Params)
      requires Tradable(series, params)
      ensures this.series == series && this.params == params
      ensures shortPositions == OfDirection(Simulate(series, params).log, Short)
      ensures longPositions == OfDirection(Simulate(series, params).log, Long)
      ensures result.Some? <==> Simulate(series, params).Completed? && |series| > 0
      ensures result.Some? ==> result.value == Summary(series, params, shortPositions, longPositions)
      ensures result.Some? && Chronicled(series) ==>
        && result.value.positions == Simulate(series, params).log
        && result.value.totalPnl == Round2(SumPnl(Simulate(series, params).log))
        && result.value.totalWins == Wins(Simulate(series, params).log)
    {
      this.series := series;
      this.params := params;
      shortPositions := [];
      longPositions := [];
      result := None;
      new;
      ghost var run := OpenPosition(0);
      if result.Some? && Chronicled(series) {
        ResultOfRun(series, params);
      }
    }

    /**
     * open_position: scan from start for the first signal and open a position
     * at the open of the candle after the next; then hold it. Without a
     * signal, load the results. The ghost result run is the rest of the run
     * from start, as Scan states it.
     */
    method OpenPosition(start: int) returns (ghost run: Outcome)
      requires Tradable(series, params) && 0 <= start <= |series|
      modifies this
      decreases |series| - start, 1
      ensures run == Scan(series, params, start)
      ensures shortPositions == old(shortPositions) + OfDirection(run.log, Short)
      ensures longPositions == old(longPositions) + OfDirection(run.log, Long)
      ensures result == if run.Completed? && |series| > 0
                        then Some(Summary(series, params, shortPositions, longPositions))
                        else old(result)
    {
      var i := start;
      while i < |series| - 1
        invariant start <= i && (i <= |series| - 1 || i == start)
        invariant forall k :: start <= k < i ==> Signal(series, params, k).None?
        invariant shortPositions == old(shortPositions) && longPositions == old(longPositions)
        invariant result == old(result)
        decreases |series| - i
      {
        var fast, slow := series[i].ma[params.fastMa], series[i].ma[params.slowMa];
        var fastNext, slowNext := series[i + 1].ma[params.fastMa], series[i + 1].ma[params.slowMa];
        if fast > slow && fastNext < slowNext {
          ScanFrom(series, params, start, i);
          ScanSignalled(series, params, i);
          run := Enter(Short, i);
          return;
        } else if fast < slow && fastNext > slowNext {
          ScanFrom(series, params, start, i);
          ScanSignalled(series, params, i);
          run := Enter(Long, i);
          return;
        }
        i := i + 1;
      }
      ScanFrom(series, params, start, i);
      run := Completed([]);
      assert shortPositions + OfDirection([], Short) == shortPositions;
      assert longPositions + OfDirection([], Long) == longPositions;
      LoadResults();
    }

    /**
     * Either branch of open_position: the crossover between candles i and
     * i + 1 opens a position of its direction at the open of candle i + 2,
     * appended to the list of that direction, and holds it from there. When
     * candle i + 2 does not exist the run stops and nothing is loaded.
     */
    method Enter(direction: Direction, i: int) returns (ghost run: Outcome)
      requires Tradable(series, params) && 0 <= i < |series| - 1
      requires Signal(series, params, i) == Some(direction)
      modifies this
      decreases |series| - i - 1, 1
      ensures i + 2 == |series| ==> run == Crashed([])
      ensures i + 2 < |series| ==>
        run == Hold(series, params, Opened(direction, series[i + 2].timestamp, series[i + 2].open), i + 2)
      ensures shortPositions == old(shortPositions) + OfDirection(run.log, Short)
      ensures longPositions == old(longPositions) + OfDirection(run.log, Long)
      ensures result == if run.Completed?
                        then Some(Summary(series, params, shortPositions, longPositions))
                        else old(result)
    {
      if i + 2 == |series| {
        run := Crashed([]);
        assert shortPositions + OfDirection([], Short) == shortPositions;
        assert longPositions + OfDirection([], Long) == longPositions;
        return;
      }
      run := TakePosition(Opened(direction, series[i + 2].timestamp, series[i + 2].open), i + 2);
    }

    /** Appends the position just opened to the list of its direction and holds it from candle start on. */
    method TakePosition(entry: Position, start: int) returns (ghost run: Outcome)
      requires Tradable(series, params) && 0 <= start < |series|
      requires entry.Opened? && entry.openPrice > 0.0
      modifies this
      decreases |series| - start, 1
      ensures run == Hold(series, params, entry, start)
      ensures shortPositions == old(shortPositions) + OfDirection(run.log, Short)
      ensures longPositions == old(longPositions) + OfDirection(run.log, Long)
      ensures result == if run.Completed?
                        then Some(Summary(series, params, shortPositions, longPositions))
                        else old(result)
    {
      if entry.direction == Short {
        shortPositions := shortPositions + [entry];
      } else {
        longPositions := longPositions + [entry];
      }
      assert Last(entry.direction) == entry;
      assert Unsettled(shortPositions, Short, entry.direction) == old(shortPositions);
      assert Unsettled(longPositions, Long, entry.direction) == old(longPositions);
      run := ClosePosition(entry.direction, start);
    }

    /**
     * close_position: watch the pending position of the given direction from
     * start on; close it at the first candle that reaches its stop (tested
     * first) or its target and scan again from the next candle. If no candle
     * before the last does, close at the last candle's close and load the
     * results. The pending position is completed in place; positions taken
     * later are appended.
     */
    method ClosePosition(direction: Direction, start: int) returns (ghost run: Outcome)
      requires Tradable(series, params) && 0 <= start < |series|
      requires Pending(direction)
      modifies this
      decreases |series| - start, 0
      ensures run == Hold(series, params, old(Last(direction)), start)
      ensures shortPositions == Unsettled(old(shortPositions), Short, direction) + OfDirection(run.log, Short)
      ensures longPositions == Unsettled(old(longPositions), Long, direction) + OfDirection(run.log, Long)
      ensures result == if run.Completed?
                        then Some(Summary(series, params, shortPositions, longPositions))
                        else old(result)
    {
      var q := Last(direction);
      var stop := StopPrice(direction, q.openPrice, params);
      var target := TargetPrice(direction, q.openPrice, params);
      var j := start;
      while j < |series| - 1
        invariant start <= j <= |series| - 1
        invariant forall k {:trigger Triggers(series[k], direction, stop, target)} :: start <= k < j ==> !Triggers(series[k], direction, stop, target)
        invariant shortPositions == old(shortPositions) && longPositions == old(longPositions)
        invariant result == old(result)
        decreases |series| - j
      {
        var c := series[j];
        var closed: Position;
        if StopHit(c, direction, stop) {
          closed := Closed(direction, q.openTime, q.openPrice, c.timestamp, stop, -StopLossRate(params));
        } else if TargetHit(c, direction, target) {
          closed := Closed(direction, q.openTime, q.openPrice, c.timestamp, target, TakeProfitRate(params));
        } else {
          j := j + 1;
          continue;
        }
        HoldUntil(series, params, q, start, j);
        assert closed == CloseOnTrigger(q, c, params);
        run := Exit(closed, j);
        return;
      }
      HoldUntil(series, params, q, start, j);
      var last := series[|series| - 1];
      var settled := Closed(direction, q.openTime, q.openPrice, last.timestamp, last.close,
                            Unrealised(direction, q.openPrice, last.close));
      run := Completed([settled]);
      OfDirectionCons(settled, [], Short);
      OfDirectionCons(settled, [], Long);
      assert [settled] + [] == [settled];
      SettleLast(direction, settled);
      LoadResults();
    }

    /**
     * Either trigger branch of close_position: the pending position is
     * completed in place as closed, at candle j, and the scan resumes at
     * candle j + 1.
     */
    method Exit(closed: Position, j: int) returns (ghost run: Outcome)
      requires Tradable(series, params) && 0 <= j < |series|
      requires Positions(closed.direction) != []
      modifies this
      decreases |series| - j - 1, 2
      ensures run == Prepend(closed, Scan(series, params, j + 1))
      ensures shortPositions == Unsettled(old(shortPositions), Short, closed.direction) + OfDirection(run.log, Short)
      ensures longPositions == Unsettled(old(longPositions), Long, closed.direction) + OfDirection(run.log, Long)
      ensures result == if run.Completed?
                        then Some(Summary(series, params, shortPositions, longPositions))
                        else old(result)
    {
      ghost var shorts, longs := shortPositions, longPositions;
      SettleLast(closed.direction, closed);
      ghost var shortsSettled, longsSettled := shortPositions, longPositions;
      var rest := OpenPosition(j + 1);
      run := Prepend(closed, rest);
      SettledThenScanned(shorts, shortsSettled, shortPositions, Short, closed, rest.log, run.log);
      SettledThenScanned(longs, longsSettled, longPositions, Long, closed, rest.log, run.log);
    }

    /** Completes the last position of direction d in place. */
    method SettleLast(d: Direction, closed: Position)
      requires Positions(d) != []
      modifies this`shortPositions, this`longPositions
      ensures shortPositions == Settle(old(shortPositions), Short, d, closed)
      ensures longPositions == Settle(old(longPositions), Long, d, closed)
    {
      if d == Short {
        shortPositions := shortPositions[..|shortPositions| - 1] + [closed];
      } else {
        longPositions := longPositions[..|longPositions| - 1] + [closed];
      }
    }

    /**
     * load_results: sum the profits and count the wins of the short list and
     * then of the long list, round the total to two places and merge both
     * lists by open time. On an empty series the first timestamp is missing,
     * and nothing is stored.
     */
    method LoadResults()
      modifies this`result
      ensures |series| > 0 ==> result == Some(Summary(series, params, shortPositions, longPositions))
      ensures |series| == 0 ==> result == old(result)
    {
      if |series| == 0 {
        return;
      }
      var shortPnl, shortWins := Tally(shortPositions);
      var longPnl, longWins := Tally(longPositions);
      var total, wins := shortPnl + longPnl, shortWins + longWins;
      SummaryOfTallies(series, params, shortPositions, longPositions, total, wins);
      result := Some(StrategyResult(series[0].timestamp, series[|series| - 1].timestamp, params,
                                    Round2(total), wins, SortBy(shortPositions + longPositions, OpenTime)));
    }
  }
}
