/** The static reference data (constants.ts): the instruments, periods and intervals. */
module Constants {
  import opened Types
  import opened Arrays

  /** `TICKERS`: three broad indices, then eleven sector funds. */
  const Tickers: seq<TickerInfo> := [
    TickerInfo("^GSPC", "S&P 500", Index, "#3b82f6"),
    TickerInfo("^NDX", "Nasdaq 100", Index, "#8b5cf6"),
    TickerInfo("^DJI", "Dow Jones", Index, "#ef4444"),
    TickerInfo("XLK", "Technology", Sector, "#10b981"),
    TickerInfo("XLF", "Financial", Sector, "#f59e0b"),
    TickerInfo("XLV", "Health Care", Sector, "#06b6d4"),
    TickerInfo("XLE", "Energy", Sector, "#f97316"),
    TickerInfo("XLI", "Industrials", Sector, "#64748b"),
    TickerInfo("XLY", "Consumer Disc", Sector, "#ec4899"),
    TickerInfo("XLP", "Consumer Staples", Sector, "#a855f7"),
    TickerInfo("XLB", "Materials", Sector, "#84cc16"),
    TickerInfo("XLU", "Utilities", Sector, "#eab308"),
    TickerInfo("XLC", "Communication", Sector, "#6366f1"),
    TickerInfo("XLRE", "Real Estate", Sector, "#14b8a6")
  ]

  /** `PERIODS`, shortest first. */
  const Periods: seq<Period> := [OneDay, FiveDays, OneMonth, TwoMonths, ThreeMonths, SixMonths, OneYear, TwoYears]

  /** `INTERVALS`, shortest first. */
  const Intervals: seq<Interval> := [Daily, Weekly, Monthly]

  /** `tickers.find(t => t.symbol === sym)`: the first instrument with that symbol. */
  function FindTicker(tickers: seq<TickerInfo>, sym: string): (found: Option<TickerInfo>)
    ensures found.Some? ==> found.value in tickers && found.value.symbol == sym
    ensures found.Some? ==>
      exists k :: 0 <= k < |tickers| && tickers[k] == found.value && forall j :: 0 <= j < k ==> tickers[j].symbol != sym
    ensures found.None? <==> forall t :: t in tickers ==> t.symbol != sym
  {
    if tickers == [] then None
    else if tickers[0].symbol == sym then Some(tickers[0])
    else
      var rest := FindTicker(tickers[1..], sym);
      assert rest.Some? ==> exists k :: 0 < k < |tickers| && tickers[k] == rest.value && forall j :: 0 <= j < k ==> tickers[j].symbol != sym by {
        if rest.Some? {
          var k :| 0 <= k < |tickers[1..]| && tickers[1..][k] == rest.value && forall j :: 0 <= j < k ==> tickers[1..][j].symbol != sym;
          assert tickers[k + 1] == rest.value;
          forall j | 0 <= j < k + 1 ensures tickers[j].symbol != sym {
            if j > 0 { assert tickers[j] == tickers[1..][j - 1]; }
          }
        }
      }
      rest
  }

  /** The symbol names an instrument of `TICKERS`. */
  predicate IsListed(symbol: string)
  {
    FindTicker(Tickers, symbol).Some?
  }

  /** Every instrument of `TICKERS` is listed under its own symbol. */
  lemma ListedAt(k: nat)
    requires k < |Tickers|
    ensures IsListed(Tickers[k].symbol)
  {
    assert Tickers[k] in Tickers;
  }

  /** `find` returns the instrument at k when k is the first position with that symbol. */
  lemma {:induction false} FindFirst(tickers: seq<TickerInfo>, sym: string, k: nat)
    requires k < |tickers| && tickers[k].symbol == sym
    requires forall j :: 0 <= j < k ==> tickers[j].symbol != sym
    ensures FindTicker(tickers, sym) == Some(tickers[k])
    decreases k
  {
    if k > 0 {
      assert tickers[0].symbol != sym;
      assert tickers[1..][k - 1] == tickers[k];
      forall j | 0 <= j < k - 1 ensures tickers[1..][j].symbol != sym {
        assert tickers[1..][j] == tickers[j + 1];
      }
      FindFirst(tickers[1..], sym, k - 1);
    }
  }

  /** No two instruments of the list share a symbol. */
  predicate DistinctSymbols(tickers: seq<TickerInfo>)
  {
    forall i, j :: 0 <= i < j < |tickers| ==> tickers[i].symbol != tickers[j].symbol
  }

  /** In a list of instruments with distinct symbols, `find` by an
      instrument's symbol returns that instrument. */
  lemma FindDistinct(tickers: seq<TickerInfo>, k: nat)
    requires DistinctSymbols(tickers) && k < |tickers|
    ensures FindTicker(tickers, tickers[k].symbol) == Some(tickers[k])
  {
    FindFirst(tickers, tickers[k].symbol, k);
  }

  /** `TICKERS.find` by a listed symbol returns the instrument listed under it. */
  lemma FindListed(k: nat)
    requires k < |Tickers|
    ensures FindTicker(Tickers, Tickers[k].symbol) == Some(Tickers[k])
  {
    TickerSymbolsDistinct();
    FindDistinct(Tickers, k);
  }

  /** How many of the instruments belong to category c. */
  function CountCategory(tickers: seq<TickerInfo>, c: Category): (count: nat)
    ensures count <= |tickers|
  {
    if tickers == [] then 0
    else (if tickers[0].category == c then 1 else 0) + CountCategory(tickers[1..], c)
  }

  /** No two instruments share a symbol, so a symbol identifies its instrument. */
  lemma TickerSymbolsDistinct()
    ensures DistinctSymbols(Tickers)
  {
  }

  /** A list of instruments that all belong to category c has |tickers| of
      them in c and none in any other category. */
  lemma {:induction false} CountUniform(tickers: seq<TickerInfo>, c: Category, other: Category)
    requires forall t :: t in tickers ==> t.category == c
    requires other != c
    ensures CountCategory(tickers, c) == |tickers|
    ensures CountCategory(tickers, other) == 0
  {
    if tickers != [] {
      assert tickers[0] in tickers;
      assert forall t :: t in tickers[1..] ==> t in tickers;
      CountUniform(tickers[1..], c, other);
    }
  }

  /** Counting a concatenation adds the counts of its parts. */
  lemma {:induction false} CountAppend(a: seq<TickerInfo>, b: seq<TickerInfo>, c: Category)
    ensures CountCategory(a + b, c) == CountCategory(a, c) + CountCategory(b, c)
  {
    if a == [] {
      assert a + b == b;
    } else {
      assert (a + b)[0] == a[0];
      assert (a + b)[1..] == a[1..] + b;
      CountAppend(a[1..], b, c);
    }
  }

  /** A list of k indices followed by sectors counts k indices and the rest sectors. */
  lemma CountSplit(tickers: seq<TickerInfo>, k: nat)
    requires k <= |tickers|
    requires forall i :: 0 <= i < k ==> tickers[i].category == Index
    requires forall i :: k <= i < |tickers| ==> tickers[i].category == Sector
    ensures CountCategory(tickers, Index) == k
    ensures CountCategory(tickers, Sector) == |tickers| - k
  {
    var indices, sectors := tickers[..k], tickers[k..];
    assert tickers == indices + sectors;
    CountUniform(indices, Index, Sector);
    CountUniform(sectors, Sector, Index);
    CountAppend(indices, sectors, Index);
    CountAppend(indices, sectors, Sector);
  }

  /** Fourteen instruments: three indices and eleven sectors. */
  lemma TickerCategoryCounts()
    ensures |Tickers| == 14
    ensures CountCategory(Tickers, Index) == 3
    ensures CountCategory(Tickers, Sector) == 11
  {
    CountSplit(Tickers, 3);
  }

  /** `PERIODS` lists every period exactly once, under the labels of the `Period`
      type, in the source's order. */
  lemma PeriodsListEveryPeriodOnce()
    ensures forall p: Period :: p in Periods
    ensures NoDuplicates(Periods)
    ensures |Periods| == 8
    ensures seq(|Periods|, k requires 0 <= k < |Periods| => Periods[k].Label())
         == ["1d", "5d", "1mo", "2mo", "3mo", "6mo", "1y", "2y"]
  {
    forall p: Period ensures p in Periods {
      match p
      case OneDay => assert Periods[0] == p;
      case FiveDays => assert Periods[1] == p;
      case OneMonth => assert Periods[2] == p;
      case TwoMonths => assert Periods[3] == p;
      case ThreeMonths => assert Periods[4] == p;
      case SixMonths => assert Periods[5] == p;
      case OneYear => assert Periods[6] == p;
      case TwoYears => assert Periods[7] == p;
    }
  }

  /** `INTERVALS` lists every interval exactly once, in the source's order. */
  lemma IntervalsListEveryIntervalOnce()
    ensures forall i: Interval :: i in Intervals
    ensures NoDuplicates(Intervals)
    ensures seq(|Intervals|, k requires 0 <= k < |Intervals| => Intervals[k].Label()) == ["1d", "1wk", "1mo"]
  {
    forall i: Interval ensures i in Intervals {
      match i
      case Daily => assert Intervals[0] == i;
      case Weekly => assert Intervals[1] == i;
      case Monthly => assert Intervals[2] == i;
    }
  }

  /** Distinct periods have distinct labels, so the datatype stands for the
      string-literal type without merging two of its values. */
  lemma PeriodLabelsDistinct(p: Period, q: Period)
    requires p != q
    ensures p.Label() != q.Label()
  {
  }

  /** Distinct intervals have distinct labels. */
  lemma IntervalLabelsDistinct(i: Interval, j: Interval)
    requires i != j
    ensures i.Label() != j.Label()
  {
  }
}
