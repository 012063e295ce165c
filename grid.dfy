/**
 * The parameter grid of one test: every combination of fast and slow moving
 * average period, stop-loss and take-profit drawn from four inclusive integer
 * ranges, keeping only the combinations the back tester considers sensible.
 * Stop-loss and take-profit are whole percentages here; the back tester turns
 * them into rates by dividing by 100.
 */
module Grid {
  import opened Numerics

  /** One combination to test. */
  datatype Params = Params(fastMa: int, slowMa: int, stopLossPct: int, takeProfitPct: int)

  /** The four inclusive ranges a test sweeps over. */
  datatype VariableRange = VariableRange(
    fastLow: int, fastHigh: int,
    slowLow: int, slowHigh: int,
    stopLossLow: int, stopLossHigh: int,
    takeProfitLow: int, takeProfitHigh: int)

  predicate InRange(b: VariableRange, p: Params)
  {
    && b.fastLow <= p.fastMa <= b.fastHigh
    && b.slowLow <= p.slowMa <= b.slowHigh
    && b.stopLossLow <= p.stopLossPct <= b.stopLossHigh
    && b.takeProfitLow <= p.takeProfitPct <= b.takeProfitHigh
  }

  /**
   * The two rules of the grid: the take-profit is at least one percentage
   * point above the stop-loss, and the fast period is below the slow one.
   */
  predicate Admissible(p: Params)
  {
    p.takeProfitPct >= p.stopLossPct + 1 && p.fastMa < p.slowMa
  }

  /** The order itertools.product yields: lexicographic, fast period first. */
  predicate Before(p: Params, q: Params)
  {
    || p.fastMa < q.fastMa
    || (p.fastMa == q.fastMa && p.slowMa < q.slowMa)
    || (p.fastMa == q.fastMa && p.slowMa == q.slowMa && p.stopLossPct < q.stopLossPct)
    || (p.fastMa == q.fastMa && p.slowMa == q.slowMa && p.stopLossPct == q.stopLossPct
        && p.takeProfitPct < q.takeProfitPct)
  }

  predicate Ascending(s: seq<Params>)
  {
    forall i, j :: 0 <= i < j < |s| ==> Before(s[i], s[j])
  }

  predicate Increasing(s: seq<int>)
  {
    forall i, j :: 0 <= i < j < |s| ==> s[i] < s[j]
  }

  /** range(low, high + 1): the integers from low to high, empty when high < low. */
  function Range(low: int, high: int): (r: seq<int>)
    decreases high - low
    ensures |r| == if high < low then 0 else high - low + 1
    ensures forall k :: 0 <= k < |r| ==> r[k] == low + k
    ensures forall x :: x in r <==> low <= x <= high
  {
    if high < low then [] else [low] + Range(low + 1, high)
  }

  /** [(f, s, sl, tp) for tp in tps] */
  function TakeProfits(f: int, s: int, sl: int, tps: seq<int>): (r: seq<Params>)
    ensures forall p :: p in r <==>
      p.fastMa == f && p.slowMa == s && p.stopLossPct == sl && p.takeProfitPct in tps
  {
    if tps == [] then []
    else
      assert tps == [tps[0]] + tps[1..];
      [Params(f, s, sl, tps[0])] + TakeProfits(f, s, sl, tps[1..])
  }

  /** [(f, s, sl, tp) for sl in sls for tp in tps] */
  function StopLosses(f: int, s: int, sls: seq<int>, tps: seq<int>): (r: seq<Params>)
    ensures forall p :: p in r <==>
      p.fastMa == f && p.slowMa == s && p.stopLossPct in sls && p.takeProfitPct in tps
  {
    if sls == [] then []
    else
      assert sls == [sls[0]] + sls[1..];
      TakeProfits(f, s, sls[0], tps) + StopLosses(f, s, sls[1..], tps)
  }

  /** [(f, s, sl, tp) for s in ss for sl in sls for tp in tps] */
  function SlowMas(f: int, ss: seq<int>, sls: seq<int>, tps: seq<int>): (r: seq<Params>)
    ensures forall p :: p in r <==>
      p.fastMa == f && p.slowMa in ss && p.stopLossPct in sls && p.takeProfitPct in tps
  {
    if ss == [] then []
    else
      assert ss == [ss[0]] + ss[1..];
      StopLosses(f, ss[0], sls, tps) + SlowMas(f, ss[1..], sls, tps)
  }

  /** itertools.product(fs, ss, sls, tps), as Params. */
  function Product(fs: seq<int>, ss: seq<int>, sls: seq<int>, tps: seq<int>): (r: seq<Params>)
    ensures forall p :: p in r <==>
      p.fastMa in fs && p.slowMa in ss && p.stopLossPct in sls && p.takeProfitPct in tps
  {
    if fs == [] then []
    else
      assert fs == [fs[0]] + fs[1..];
      SlowMas(fs[0], ss, sls, tps) + Product(fs[1..], ss, sls, tps)
  }

  /**
   * The rule filter of the back tester: the admissible combinations of s,
   * in the order s has them.
   */
  function KeepAdmissible(s: seq<Params>): (r: seq<Params>)
    ensures forall p :: p in r <==> p in s && Admissible(p)
  {
    if s == [] then []
    else
      var last := s[|s| - 1];
      assert s == s[..|s| - 1] + [last];
      KeepAdmissible(s[..|s| - 1]) + (if Admissible(last) then [last] else [])
  }

  lemma KeepAdmissibleSnoc(s: seq<Params>, c: Params)
    ensures KeepAdmissible(s + [c]) == KeepAdmissible(s) + (if Admissible(c) then [c] else [])
  {
    assert (s + [c])[..|s|] == s;
  }

  /** The grid of a test: the admissible part of the product of the four ranges. */
  function Grid(b: VariableRange): (r: seq<Params>)
    ensures forall p :: p in r <==> InRange(b, p) && Admissible(p)
  {
    KeepAdmissible(Product(
      Range(b.fastLow, b.fastHigh), Range(b.slowLow, b.slowHigh),
      Range(b.stopLossLow, b.stopLossHigh), Range(b.takeProfitLow, b.takeProfitHigh)))
  }

  /** The admissible combinations of a test, as a set. */
  function GridSet(b: VariableRange): set<Params>
  {
    set f, s, sl, tp |
      && b.fastLow <= f <= b.fastHigh && b.slowLow <= s <= b.slowHigh
      && b.stopLossLow <= sl <= b.stopLossHigh && b.takeProfitLow <= tp <= b.takeProfitHigh
      && Admissible(Params(f, s, sl, tp))
      :: Params(f, s, sl, tp)
  }

  // ---------------------------------------------------------------------
  // Order of the grid

  lemma RangeIncreasing(low: int, high: int)
    ensures Increasing(Range(low, high))
  {
  }

  /** Two ascending runs, every element of the first before every element of the second. */
  lemma ConcatAscending(a: seq<Params>, b: seq<Params>)
    requires Ascending(a) && Ascending(b)
    requires forall i, j :: 0 <= i < |a| && 0 <= j < |b| ==> Before(a[i], b[j])
    ensures Ascending(a + b)
  {
    var c := a + b;
    forall i, j | 0 <= i < j < |c| ensures Before(c[i], c[j]) {
      if j < |a| {
        assert c[i] == a[i] && c[j] == a[j];
      } else if i < |a| {
        assert c[i] == a[i] && c[j] == b[j - |a|];
      } else {
        assert c[i] == b[i - |a|] && c[j] == b[j - |a|];
      }
    }
  }

  lemma {:induction false} TakeProfitsAscending(f: int, s: int, sl: int, tps: seq<int>)
    requires Increasing(tps)
    ensures Ascending(TakeProfits(f, s, sl, tps))
  {
    if tps != [] {
      var rest := tps[1..];
      TakeProfitsAscending(f, s, sl, rest);
      var tail := TakeProfits(f, s, sl, rest);
      forall j | 0 <= j < |tail| ensures Before(Params(f, s, sl, tps[0]), tail[j]) {
        assert tail[j] in tail;
        var k :| 0 <= k < |rest| && rest[k] == tail[j].takeProfitPct;
        assert tps[0] < tps[k + 1];
      }
      ConcatAscending([Params(f, s, sl, tps[0])], tail);
    }
  }

  lemma {:induction false} StopLossesAscending(f: int, s: int, sls: seq<int>, tps: seq<int>)
    requires Increasing(sls) && Increasing(tps)
    ensures Ascending(StopLosses(f, s, sls, tps))
  {
    if sls != [] {
      var rest := sls[1..];
      TakeProfitsAscending(f, s, sls[0], tps);
      StopLossesAscending(f, s, rest, tps);
      var head, tail := TakeProfits(f, s, sls[0], tps), StopLosses(f, s, rest, tps);
      forall i, j | 0 <= i < |head| && 0 <= j < |tail| ensures Before(head[i], tail[j]) {
        assert head[i] in head && tail[j] in tail;
        var k :| 0 <= k < |rest| && rest[k] == tail[j].stopLossPct;
        assert sls[0] < sls[k + 1];
      }
      ConcatAscending(head, tail);
    }
  }

  lemma {:induction false} SlowMasAscending(f: int, ss: seq<int>, sls: seq<int>, tps: seq<int>)
    requires Increasing(ss) && Increasing(sls) && Increasing(tps)
    ensures Ascending(SlowMas(f, ss, sls, tps))
  {
    if ss != [] {
      var rest := ss[1..];
      StopLossesAscending(f, ss[0], sls, tps);
      SlowMasAscending(f, rest, sls, tps);
      var head, tail := StopLosses(f, ss[0], sls, tps), SlowMas(f, rest, sls, tps);
      forall i, j | 0 <= i < |head| && 0 <= j < |tail| ensures Before(head[i], tail[j]) {
        assert head[i] in head && tail[j] in tail;
        var k :| 0 <= k < |rest| && rest[k] == tail[j].slowMa;
        assert ss[0] < ss[k + 1];
      }
      ConcatAscending(head, tail);
    }
  }

  lemma {:induction false} ProductAscending(fs: seq<int>, ss: seq<int>, sls: seq<int>, tps: seq<int>)
    requires Increasing(fs) && Increasing(ss) && Increasing(sls) && Increasing(tps)
    ensures Ascending(Product(fs, ss, sls, tps))
  {
    if fs != [] {
      var rest := fs[1..];
      SlowMasAscending(fs[0], ss, sls, tps);
      ProductAscending(rest, ss, sls, tps);
      var head, tail := SlowMas(fs[0], ss, sls, tps), Product(rest, ss, sls, tps);
      forall i, j | 0 <= i < |head| && 0 <= j < |tail| ensures Before(head[i], tail[j]) {
        assert head[i] in head && tail[j] in tail;
        var k :| 0 <= k < |rest| && rest[k] == tail[j].fastMa;
        assert fs[0] < fs[k + 1];
      }
      ConcatAscending(head, tail);
    }
  }

  /** Filtering keeps the relative order of what it keeps. */
  lemma {:induction false} KeepAdmissibleAscending(s: seq<Params>)
    requires Ascending(s)
    ensures Ascending(KeepAdmissible(s))
  {
    if s != [] {
      var init, last := s[..|s| - 1], s[|s| - 1];
      KeepAdmissibleAscending(init);
      var kept := KeepAdmissible(init);
      forall i | 0 <= i < |kept| ensures Before(kept[i], last) {
        assert kept[i] in kept;
        var k :| 0 <= k < |init| && init[k] == kept[i];
        assert s[k] == kept[i];
      }
      ConcatAscending(kept, if Admissible(last) then [last] else []);
    }
  }

  /**
   * The grid is in itertools.product order: fast period outermost, then slow
   * period, stop-loss and take-profit, each ascending over its range.
   */
  lemma GridAscending(b: VariableRange)
    ensures Ascending(Grid(b))
  {
    RangeIncreasing(b.fastLow, b.fastHigh);
    RangeIncreasing(b.slowLow, b.slowHigh);
    RangeIncreasing(b.stopLossLow, b.stopLossHigh);
    RangeIncreasing(b.takeProfitLow, b.takeProfitHigh);
    var all := Product(
      Range(b.fastLow, b.fastHigh), Range(b.slowLow, b.slowHigh),
      Range(b.stopLossLow, b.stopLossHigh), Range(b.takeProfitLow, b.takeProfitHigh));
    ProductAscending(
      Range(b.fastLow, b.fastHigh), Range(b.slowLow, b.slowHigh),
      Range(b.stopLossLow, b.stopLossHigh), Range(b.takeProfitLow, b.takeProfitHigh));
    KeepAdmissibleAscending(all);
  }

  // ---------------------------------------------------------------------
  // Size of the grid

  /** An ascending sequence repeats nothing, so it has as many elements as its set. */
  lemma {:induction false} AscendingCardinality(s: seq<Params>)
    requires Ascending(s)
    ensures |(set p | p in s)| == |s|
  {
    if s != [] {
      AscendingSplit(s);
      AscendingCardinality(s[1..]);
    }
  }

  /** The head of an ascending sequence, and its tail: ascending again and without the head. */
  lemma AscendingSplit(s: seq<Params>)
    requires s != [] && Ascending(s)
    ensures Ascending(s[1..])
    ensures (set p | p in s) == {s[0]} + (set p | p in s[1..])
    ensures s[0] !in (set p | p in s[1..])
  {
    var t := s[1..];
    forall i, j | 0 <= i < j < |t| ensures Before(t[i], t[j]) {
      assert t[i] == s[i + 1] && t[j] == s[j + 1];
    }
    assert s == [s[0]] + t;
    forall i | 0 <= i < |t| ensures t[i] != s[0] {
      assert Before(s[0], s[i + 1]);
    }
  }

  /**
   * The number of tests is the number of admissible combinations, each
   * listed once.
   */
  lemma GridCount(b: VariableRange)
    ensures |Grid(b)| == |GridSet(b)|
  {
    var g := Grid(b);
    GridAscending(b);
    AscendingCardinality(g);
    assert (set p | p in g) == GridSet(b) by {
      forall p ensures p in g <==> p in GridSet(b) {
        if p in g {
          assert InRange(b, p) && Admissible(p);
          assert p == Params(p.fastMa, p.slowMa, p.stopLossPct, p.takeProfitPct);
        }
      }
    }
  }

  /** A range whose high end is below its low end is empty, and so is the grid: no error. */
  lemma EmptyRangeEmptyGrid(b: VariableRange)
    requires || b.fastHigh < b.fastLow || b.slowHigh < b.slowLow
             || b.stopLossHigh < b.stopLossLow || b.takeProfitHigh < b.takeProfitLow
    ensures Grid(b) == []
  {
  }

  // ---------------------------------------------------------------------
  // The take-profit rule in binary floating point

  function Pow2(e: nat): (r: nat)
    ensures r > 0
  {
    if e == 0 then 1 else 2 * Pow2(e - 1)
  }

  lemma Pow2Values()
    ensures Pow2(52) == 4503599627370496 && Pow2(53) == 9007199254740992
    ensures Pow2(57) == 144115188075855872 && Pow2(59) == 576460752303423488
  {
    assert Pow2(4) == 16;
    assert Pow2(8) == 256;
    assert Pow2(12) == 4096;
    assert Pow2(16) == 65536;
    assert Pow2(20) == 1048576;
    assert Pow2(24) == 16777216;
    assert Pow2(28) == 268435456;
    assert Pow2(32) == 4294967296;
    assert Pow2(36) == 68719476736;
    assert Pow2(40) == 1099511627776;
    assert Pow2(44) == 17592186044416;
    assert Pow2(48) == 281474976710656;
    assert Pow2(56) == 72057594037927936;
  }

  /** e is the binary exponent of the positive x: x * 2^e has 53 significant bits. */
  predicate Binary64Scale(x: real, e: nat)
  {
    AtScale(x, Pow2(e) as real)
  }

  /** x * p lies in [2^52, 2^53): x is a 53-bit integer multiple of 1 / p. */
  predicate AtScale(x: real, p: real)
  {
    4503599627370496.0 <= x * p < 9007199254740992.0
  }

  /** x rounded to the nearest multiple of 1 / p, ties to even. */
  function RoundToScale(x: real, p: real): real
    requires p > 0.0
  {
    RoundHalfEven(x * p) as real / p
  }

  /**
   * The IEEE 754 double nearest to x (ties to even), for an x whose binary
   * exponent is e (Binary64Scale): the rounding of a literal, of a quotient
   * and of a sum alike.
   */
  function ToBinary64(x: real, e: nat): (r: real)
    ensures Binary64Scale(x, e) ==> x - x / 9007199254740992.0 <= r <= x + x / 9007199254740992.0
  {
    var p := Pow2(e) as real;
    if AtScale(x, p) then ScaledError(x, p); RoundToScale(x, p)
    else RoundToScale(x, p)
  }

  /** Rounding at a scale where x has 53 bits moves it by at most one part in 2^53. */
  lemma ScaledError(x: real, p: real)
    requires p > 0.0 && AtScale(x, p)
    ensures x - x / 9007199254740992.0 <= RoundToScale(x, p) <= x + x / 9007199254740992.0
  {
    HalfUnitError(x, p, RoundHalfEven(x * p) as real);
  }

  /** An n within one half of x * p gives an n / p within one part in 2^53 of x. */
  lemma HalfUnitError(x: real, p: real, n: real)
    requires p > 0.0 && 4503599627370496.0 <= x * p
    requires x * p - 0.5 <= n <= x * p + 0.5
    ensures x - x / 9007199254740992.0 <= n / p <= x + x / 9007199254740992.0
  {
    assert n / p - x == (n - x * p) / p;
    assert 0.5 / p <= x / 9007199254740992.0 by {
      assert 0.5 * 9007199254740992.0 <= x * p;
    }
  }

  /** The exponents are those of sl / 100, of 0.01, of the rounded sum and of tp / 100. */
  predicate Certified(sl: int, tp: int, eSl: nat, eSum: nat, eTp: nat)
  {
    && Binary64Scale(sl as real / 100.0, eSl) && Binary64Scale(0.01, 59)
    && Binary64Scale(ToBinary64(sl as real / 100.0, eSl) + ToBinary64(0.01, 59), eSum)
    && Binary64Scale(tp as real / 100.0, eTp)
  }

  /**
   * The take-profit rule as the back tester writes it, on doubles:
   * tp / 100 >= sl / 100 + 0.01, each step rounded to the nearest double.
   * It agrees with the intended tp >= sl + 1 except at a gap of exactly one
   * point: a gap of two or more is admitted and none at all is refused (for
   * rates up to a million percent, far below where doubles lose a point).
   */
  function TakeProfitRuleAsWritten(sl: int, tp: int, eSl: nat, eSum: nat, eTp: nat): (r: bool)
    ensures Certified(sl, tp, eSl, eSum, eTp) && sl + 2 <= tp <= 1000000 ==> r
    ensures Certified(sl, tp, eSl, eSum, eTp) && tp <= sl <= 1000000 ==> !r
  {
    var a := ToBinary64(sl as real / 100.0, eSl);
    var c := ToBinary64(0.01, 59);
    var m := ToBinary64(a + c, eSum);
    var t := ToBinary64(tp as real / 100.0, eTp);
    if Certified(sl, tp, eSl, eSum, eTp) then
      ScalePositive(sl as real / 100.0, eSl);
      RuleBounds(sl as real / 100.0, tp as real / 100.0, a, c, m, t);
      t >= m
    else t >= m
  }

  lemma ScalePositive(x: real, e: nat)
    requires Binary64Scale(x, e)
    ensures x > 0.0
  {
  }

  /**
   * The rounding errors of the four steps, one part in 2^53 each, are far
   * smaller than the 0.01 that separates a gap of two points from one and a
   * gap of one from none.
   */
  lemma RuleBounds(s: real, t: real, a: real, c: real, m: real, tt: real)
    requires s > 0.0
    requires s - s / 9007199254740992.0 <= a <= s + s / 9007199254740992.0
    requires 0.01 - 0.01 / 9007199254740992.0 <= c <= 0.01 + 0.01 / 9007199254740992.0
    requires (a + c) - (a + c) / 9007199254740992.0 <= m <= (a + c) + (a + c) / 9007199254740992.0
    requires t - t / 9007199254740992.0 <= tt <= t + t / 9007199254740992.0
    ensures s + 0.02 <= t <= 10000.0 ==> tt >= m
    ensures t <= s <= 10000.0 ==> tt < m
  {
  }

  /**
   * A stop-loss of 5% with a take-profit of 6% is one percentage point apart,
   * which the rule means to admit; on doubles 0.05 + 0.01 rounds above 0.06,
   * so the back tester drops it.
   */
  lemma FloatRuleRejectsFiveSix()
    ensures Admissible(Params(10, 20, 5, 6))
    ensures Binary64Scale(0.05, 57) && Binary64Scale(0.01, 59) && Binary64Scale(0.06, 57)
    ensures Binary64Scale(ToBinary64(0.05, 57) + ToBinary64(0.01, 59), 57)
    ensures !TakeProfitRuleAsWritten(5, 6, 57, 57, 57)
  {
    Pow2Values();
  }

  // ---------------------------------------------------------------------
  // The back tester's procedure

  /**
   * The rule loop of cartesian_product: walk the listed combinations in
   * order and append each one that satisfies both rules.
   */
  method KeepRules(cartProdList: seq<Params>) returns (variableList: seq<Params>)
    ensures variableList == KeepAdmissible(cartProdList)
  {
    variableList := [];
    for x := 0 to |cartProdList|
      invariant variableList == KeepAdmissible(cartProdList[..x])
    {
      var c := cartProdList[x];
      assert cartProdList[..x + 1] == cartProdList[..x] + [c];
      KeepAdmissibleSnoc(cartProdList[..x], c);
      if c.takeProfitPct >= c.stopLossPct + 1 && c.fastMa < c.slowMa {
        variableList := variableList + [c];
      }
    }
    assert cartProdList[..|cartProdList|] == cartProdList;
  }

  /**
   * cartesian_product: list the product of the four ranges, then keep the
   * admissible combinations; also report how many there are.
   */
  method CartesianProduct(
    fastMaLow: int, fastMaHigh: int, slowMaLow: int, slowMaHigh: int,
    stopLossLow: int, stopLossHigh: int, takeProfitLow: int, takeProfitHigh: int)
    returns (variableList: seq<Params>, noOfTests: nat)
    ensures variableList == Grid(VariableRange(fastMaLow, fastMaHigh, slowMaLow, slowMaHigh,
                                               stopLossLow, stopLossHigh, takeProfitLow, takeProfitHigh))
    ensures noOfTests == |variableList|
    ensures Ascending(variableList)
  {
    var cartProd := Product(
      Range(fastMaLow, fastMaHigh), Range(slowMaLow, slowMaHigh),
      Range(stopLossLow, stopLossHigh), Range(takeProfitLow, takeProfitHigh));
    var cartProdList: seq<Params> := [];
    for x := 0 to |cartProd|
      invariant cartProdList == cartProd[..x]
    {
      cartProdList := cartProdList + [cartProd[x]];
    }
    assert cartProdList == cartProd;
    variableList := KeepRules(cartProdList);
    noOfTests := |variableList|;
    GridAscending(VariableRange(fastMaLow, fastMaHigh, slowMaLow, slowMaHigh,
                                stopLossLow, stopLossHigh, takeProfitLow, takeProfitHigh));
  }
}
