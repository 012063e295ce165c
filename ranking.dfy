/**
 * The two ranking queries over the Strategy_Results table: the best single
 * parameter combinations of one test, and the (fast, slow) moving-average
 * pairs that recur among that test's best combinations. Both are read-only
 * queries; here the table is an in-memory sequence of rows.
 */
module Ranking {
  import opened Sorting

  /** One row of Strategy_Results; stop loss and take profit are whole percentages. */
  datatype ResultRow = ResultRow(
    testId: int, fastMa: int, slowMa: int,
    stopLossPct: int, takeProfitPct: int, totalPnl: real)

  /** The (Fast_MA, Slow_MA) pair the group query groups by. */
  datatype MaPair = MaPair(fastMa: int, slowMa: int)

  /** One row of the group query's answer. */
  datatype GroupRow = GroupRow(
    fastMa: int, slowMa: int,
    avgStopLoss: real, avgTakeProfit: real,
    topPnl: real, avgPnl: real, freq: nat)

  function PairOf(row: ResultRow): MaPair
  {
    MaPair(row.fastMa, row.slowMa)
  }

  function GroupPair(g: GroupRow): MaPair
  {
    MaPair(g.fastMa, g.slowMa)
  }

  function Last<T>(s: seq<T>): T
    requires s != []
  {
    s[|s| - 1]
  }

  function AllButLast<T>(s: seq<T>): seq<T>
    requires s != []
  {
    s[..|s| - 1]
  }

  /** WHERE Test_Variable_Range_ID = testId: the test's rows, in table order. */
  function OfTest(table: seq<ResultRow>, testId: int): (r: seq<ResultRow>)
    ensures forall row :: row in r <==> row in table && row.testId == testId
  {
    if table == [] then []
    else OfTest(AllButLast(table), testId) + (if Last(table).testId == testId then [Last(table)] else [])
  }

  /** The sort key of ORDER BY Total_PNL DESC. */
  function NegPnl(row: ResultRow): real
  {
    -row.totalPnl
  }

  /**
   * ORDER BY Total_PNL DESC LIMIT n: the n rows of highest pnl (all of them
   * when there are fewer), best first. No row left out beats a row kept.
   */
  function Best(rows: seq<ResultRow>, n: nat): (r: seq<ResultRow>)
    ensures |r| == if n < |rows| then n else |rows|
    ensures multiset(r) <= multiset(rows)
    ensures forall i, j :: 0 <= i < j < |r| ==> r[i].totalPnl >= r[j].totalPnl
    ensures forall x, i :: x in multiset(rows) - multiset(r) && 0 <= i < |r| ==> x.totalPnl <= r[i].totalPnl
  {
    var sorted := SortBy(rows, NegPnl);
    var k := if n < |rows| then n else |rows|;
    PrefixIsBest(rows, sorted, k);
    sorted[..k]
  }

  /** Cutting a sorted sequence: every element after the cut ranks below every element before it. */
  lemma PrefixIsBest(rows: seq<ResultRow>, sorted: seq<ResultRow>, k: nat)
    requires SortedBy(sorted, NegPnl) && multiset(sorted) == multiset(rows) && k <= |rows|
    ensures k <= |sorted| && multiset(sorted[..k]) <= multiset(rows)
    ensures forall i, j :: 0 <= i < j < k ==> sorted[i].totalPnl >= sorted[j].totalPnl
    ensures forall x, i :: x in multiset(rows) - multiset(sorted[..k]) && 0 <= i < k ==> x.totalPnl <= sorted[i].totalPnl
  {
    assert |sorted| == |multiset(sorted)| == |rows|;
    var top, rest := sorted[..k], sorted[k..];
    assert sorted == top + rest;
    assert multiset(rows) - multiset(top) == multiset(rest);
    forall i, j | 0 <= i < j < k
      ensures sorted[i].totalPnl >= sorted[j].totalPnl
    {
      assert NegPnl(sorted[i]) <= NegPnl(sorted[j]);
    }
    forall x: ResultRow, i | x in multiset(rest) && 0 <= i < k
      ensures x.totalPnl <= sorted[i].totalPnl
    {
      var j :| 0 <= j < |rest| && rest[j] == x;
      assert sorted[k + j] == x;
      assert NegPnl(sorted[i]) <= NegPnl(sorted[k + j]);
    }
  }

  /**
   * retrieve_top_strats: the test's 50 rows of highest pnl (fewer when the
   * test has fewer), best first; no row of the test left out beats a row kept.
   */
  function TopStrats(table: seq<ResultRow>, testId: int): (r: seq<ResultRow>)
    ensures |r| <= 50 && (|r| < 50 ==> |r| == |OfTest(table, testId)|)
    ensures multiset(r) <= multiset(OfTest(table, testId))
    ensures forall row :: row in r ==> row in table && row.testId == testId
    ensures forall i, j :: 0 <= i < j < |r| ==> r[i].totalPnl >= r[j].totalPnl
    ensures forall x, i :: x in multiset(OfTest(table, testId)) - multiset(r) && 0 <= i < |r| ==> x.totalPnl <= r[i].totalPnl
  {
    var all := OfTest(table, testId);
    var top := Best(all, 50);
    TopInAll(all, top);
    top
  }

  /**
   * The first cte of the group query: the test's 200 rows of highest pnl
   * (all of them when it has fewer), best first; no row of the test left
   * out beats a row kept.
   */
  function Top200(table: seq<ResultRow>, testId: int): (r: seq<ResultRow>)
    ensures |r| == if 200 < |OfTest(table, testId)| then 200 else |OfTest(table, testId)|
    ensures multiset(r) <= multiset(OfTest(table, testId))
    ensures forall row :: row in r ==> row in OfTest(table, testId)
    ensures forall i, j :: 0 <= i < j < |r| ==> r[i].totalPnl >= r[j].totalPnl
    ensures forall x, i :: x in multiset(OfTest(table, testId)) - multiset(r) && 0 <= i < |r| ==> x.totalPnl <= r[i].totalPnl
  {
    var all := OfTest(table, testId);
    var top := Best(all, 200);
    TopInAll(all, top);
    top
  }

  /** The rows of one (fast, slow) pair, in order. */
  function OfPair(rows: seq<ResultRow>, pr: MaPair): (r: seq<ResultRow>)
    ensures forall row :: row in r <==> row in rows && PairOf(row) == pr
  {
    if rows == [] then []
    else OfPair(AllButLast(rows), pr) + (if PairOf(Last(rows)) == pr then [Last(rows)] else [])
  }

  /** COUNT(*) of one group. */
  function Freq(rows: seq<ResultRow>, pr: MaPair): nat
  {
    |OfPair(rows, pr)|
  }

  /** The distinct pairs of rows, in the order they first appear. */
  function Pairs(rows: seq<ResultRow>): (r: seq<MaPair>)
    ensures forall pr :: pr in r <==> Freq(rows, pr) > 0
    ensures NoDuplicates(r)
  {
    if rows == [] then []
    else
      var front := Pairs(AllButLast(rows));
      FreqSnoc(rows);
      if PairOf(Last(rows)) in front then front else front + [PairOf(Last(rows))]
  }

  lemma FreqSnoc(rows: seq<ResultRow>)
    requires rows != []
    ensures forall pr :: Freq(rows, pr) > 0 <==> Freq(AllButLast(rows), pr) > 0 || PairOf(Last(rows)) == pr
  {
    forall pr
      ensures Freq(rows, pr) > 0 <==> Freq(AllButLast(rows), pr) > 0 || PairOf(Last(rows)) == pr
    {
      assert Freq(rows, pr) == Freq(AllButLast(rows), pr) + (if PairOf(Last(rows)) == pr then 1 else 0);
    }
  }

  /** The sum of one numeric column. */
  function Sum(rows: seq<ResultRow>, column: ResultRow -> real): real
  {
    if rows == [] then 0.0 else Sum(AllButLast(rows), column) + column(Last(rows))
  }

  /** AVG of one numeric column. */
  function Mean(rows: seq<ResultRow>, column: ResultRow -> real): real
    requires rows != []
  {
    Sum(rows, column) / (|rows| as real)
  }

  function StopLossOf(row: ResultRow): real { row.stopLossPct as real }
  function TakeProfitOf(row: ResultRow): real { row.takeProfitPct as real }
  function PnlOf(row: ResultRow): real { row.totalPnl }

  /** MAX(Total_PNL): a pnl of one of the rows, and none of them is higher. */
  function MaxPnl(rows: seq<ResultRow>): (m: real)
    requires rows != []
    ensures exists row :: row in rows && row.totalPnl == m
    ensures forall row :: row in rows ==> row.totalPnl <= m
  {
    if |rows| == 1 then
      assert rows[0] == Last(rows);
      Last(rows).totalPnl
    else
      var front := MaxPnl(AllButLast(rows));
      assert rows == AllButLast(rows) + [Last(rows)];
      if front < Last(rows).totalPnl then Last(rows).totalPnl else front
  }

  /**
   * One group: the pair's rows among the top rows give the averages and the
   * count; the pair's rows among all the test's rows give the best pnl.
   */
  function Group(top: seq<ResultRow>, all: seq<ResultRow>, pr: MaPair): (g: GroupRow)
    requires Freq(top, pr) > 0
    requires forall row :: row in top ==> row in all
    ensures GroupPair(g) == pr && g.freq == Freq(top, pr)
    ensures forall row :: row in all && PairOf(row) == pr ==> row.totalPnl <= g.topPnl
    ensures exists row :: row in all && PairOf(row) == pr && row.totalPnl == g.topPnl
  {
    var members := OfPair(top, pr);
    assert members[0] in OfPair(all, pr);
    GroupRow(
      pr.fastMa, pr.slowMa,
      Mean(members, StopLossOf), Mean(members, TakeProfitOf),
      MaxPnl(OfPair(all, pr)), Mean(members, PnlOf), |members|)
  }

  /** GROUP BY f_ma, s_ma HAVING Freq > 2, one group per listed pair. */
  function Groups(pairs: seq<MaPair>, top: seq<ResultRow>, all: seq<ResultRow>): (r: seq<GroupRow>)
    requires forall row :: row in top ==> row in all
    ensures forall g :: g in r ==> GroupPair(g) in pairs && Freq(top, GroupPair(g)) > 2 && g == Group(top, all, GroupPair(g))
    ensures forall pr :: pr in pairs && Freq(top, pr) > 2 ==> Group(top, all, pr) in r
    ensures NoDuplicates(pairs) ==> NoDuplicates(r)
  {
    if pairs == [] then []
    else
      var rest := Groups(pairs[1..], top, all);
      assert forall pr :: pr in pairs <==> pr == pairs[0] || pr in pairs[1..];
      if Freq(top, pairs[0]) > 2 then
        var r := [Group(top, all, pairs[0])] + rest;
        assert NoDuplicates(pairs) ==> NoDuplicates(r) by {
          if NoDuplicates(pairs) {
            TailNoDuplicates(pairs);
          }
        }
        r
      else
        assert NoDuplicates(pairs) ==> NoDuplicates(rest) by {
          if NoDuplicates(pairs) {
            TailNoDuplicates(pairs);
          }
        }
        rest
  }

  lemma TailNoDuplicates<T>(s: seq<T>)
    requires s != [] && NoDuplicates(s)
    ensures NoDuplicates(s[1..]) && s[0] !in s[1..]
  {
    forall i, j | 0 <= i < j < |s[1..]| ensures s[1..][i] != s[1..][j] {
      assert s[1..][i] == s[i + 1] && s[1..][j] == s[j + 1];
    }
    forall k | 0 <= k < |s[1..]| ensures s[1..][k] != s[0] {
      assert s[1..][k] == s[k + 1];
    }
  }

  /** The sort key of ORDER BY avg_pnl DESC. */
  function NegAvgPnl(g: GroupRow): real
  {
    -g.avgPnl
  }

  /**
   * retrieve_top_group_strats: of the test's 200 best rows, the (fast, slow)
   * pairs occurring more than twice, each once, best average pnl first. Each
   * row is the group of its pair; every such pair has its row.
   */
  function TopGroupStrats(table: seq<ResultRow>, testId: int): (r: seq<GroupRow>)
    ensures forall g :: g in r ==> Freq(Top200(table, testId), GroupPair(g)) == g.freq > 2
    ensures forall g :: g in r ==> g == Group(Top200(table, testId), OfTest(table, testId), GroupPair(g))
    ensures forall pr :: Freq(Top200(table, testId), pr) > 2 ==> Group(Top200(table, testId), OfTest(table, testId), pr) in r
    ensures forall i, j :: 0 <= i < j < |r| ==> GroupPair(r[i]) != GroupPair(r[j])
    ensures forall i, j :: 0 <= i < j < |r| ==> r[i].avgPnl >= r[j].avgPnl
  {
    var all := OfTest(table, testId);
    var top := Top200(table, testId);
    var groups := Groups(Pairs(top), top, all);
    var r := SortBy(groups, NegAvgPnl);
    OrderedGroups(Pairs(top), top, all, groups, r);
    r
  }

  /** Ordering the groups keeps each of them, once, and puts the best average first. */
  lemma OrderedGroups(pairs: seq<MaPair>, top: seq<ResultRow>, all: seq<ResultRow>, groups: seq<GroupRow>, r: seq<GroupRow>)
    requires forall row :: row in top ==> row in all
    requires NoDuplicates(pairs) && groups == Groups(pairs, top, all)
    requires multiset(r) == multiset(groups) && SortedBy(r, NegAvgPnl)
    ensures forall g :: g in r <==> g in groups
    ensures forall i, j :: 0 <= i < j < |r| ==> GroupPair(r[i]) != GroupPair(r[j])
    ensures forall i, j :: 0 <= i < j < |r| ==> r[i].avgPnl >= r[j].avgPnl
  {
    SameMembers(groups, r);
    PermutationNoDuplicates(groups, r);
    forall i, j | 0 <= i < j < |r|
      ensures GroupPair(r[i]) != GroupPair(r[j]) && r[i].avgPnl >= r[j].avgPnl
    {
      assert r[i] != r[j] && r[i] in groups && r[j] in groups;
      assert NegAvgPnl(r[i]) <= NegAvgPnl(r[j]);
    }
  }

  lemma SameMembers<T>(a: seq<T>, b: seq<T>)
    requires multiset(a) == multiset(b)
    ensures forall x :: x in a <==> x in b
  {
    forall x ensures x in a <==> x in b {
      assert x in a <==> x in multiset(a);
      assert x in b <==> x in multiset(b);
    }
  }

  /**
   * A group's Top_PNL is the best pnl of its pair over all of the test's rows,
   * not only the 200 best, so it is never below the group's average pnl.
   */
  lemma GroupTopPnl(table: seq<ResultRow>, testId: int, g: GroupRow)
    requires g in TopGroupStrats(table, testId)
    ensures forall row :: row in table && row.testId == testId && PairOf(row) == GroupPair(g) ==> row.totalPnl <= g.topPnl
    ensures exists row :: row in table && row.testId == testId && PairOf(row) == GroupPair(g) && row.totalPnl == g.topPnl
    ensures g.avgPnl <= g.topPnl
  {
    var top, all, pr := Top200(table, testId), OfTest(table, testId), GroupPair(g);
    assert g == Group(top, all, pr);
    GroupBounds(top, all, pr);
  }

  /** A group's average pnl over its top rows is never above its best pnl over all rows. */
  lemma GroupBounds(top: seq<ResultRow>, all: seq<ResultRow>, pr: MaPair)
    requires Freq(top, pr) > 0
    requires forall row :: row in top ==> row in all
    ensures Group(top, all, pr).avgPnl <= Group(top, all, pr).topPnl
  {
    var members, best := OfPair(top, pr), Group(top, all, pr).topPnl;
    assert best == MaxPnl(OfPair(all, pr));
    assert forall row :: row in members ==> row in OfPair(all, pr);
    SumAtMost(members, PnlOf, best);
    MeanAtMost(members, PnlOf, best);
  }

  lemma {:induction false} SumAtMost(rows: seq<ResultRow>, column: ResultRow -> real, bound: real)
    requires forall row :: row in rows ==> column(row) <= bound
    ensures Sum(rows, column) <= (|rows| as real) * bound
  {
    if rows != [] {
      assert Last(rows) in rows;
      assert forall row :: row in AllButLast(rows) ==> row in rows;
      SumAtMost(AllButLast(rows), column, bound);
    }
  }

  /** An average is never above a bound on what it averages. */
  lemma MeanAtMost(rows: seq<ResultRow>, column: ResultRow -> real, bound: real)
    requires rows != [] && Sum(rows, column) <= (|rows| as real) * bound
    ensures Mean(rows, column) <= bound
  {
    var n := |rows| as real;
    assert Mean(rows, column) * n == Sum(rows, column);
  }

  lemma TopInAll(all: seq<ResultRow>, top: seq<ResultRow>)
    requires multiset(top) <= multiset(all)
    ensures forall row :: row in top ==> row in all
  {
    forall row | row in top ensures row in all {
      assert row in multiset(top);
    }
  }
}
