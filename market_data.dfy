/** The mock market-data generator (services/marketDataService.ts): a backward
    random walk per symbol, the chart points of relative performance, and one
    summary row per symbol. The random source is a parameter: one draw in [0, 1)
    per walk step and symbol. */
module MarketData {
  import opened Types
  import opened Arrays
  import opened Constants

  /** Why a request fails: a requested symbol names no listed instrument, so
      looking up its name and colour for the summary fails. */
  datatype FetchError = UnknownTicker(symbol: string)

  datatype Result<T> = Ok(value: T) | Err(error: FetchError)

  /** What a request returns: the chart points and the summary rows. */
  datatype MarketData = MarketData(data: seq<MarketDataPoint>, summary: seq<SummaryStats>)

  // ---------------------------------------------------------------------------
  // Reference tables of the generator

  /** `daysMap`: the length of a period in calendar days. */
  function TotalDays(p: Period): (days: nat)
    ensures days >= 1
  {
    match p
    case OneDay => 1
    case FiveDays => 5
    case OneMonth => 30
    case TwoMonths => 60
    case ThreeMonths => 90
    case SixMonths => 180
    case OneYear => 365
    case TwoYears => 730
  }

  /** `stepMap`: the days between two chart points. */
  function StepDays(i: Interval): (days: nat)
    ensures days >= 1
  {
    match i
    case Daily => 1
    case Weekly => 7
    case Monthly => 30
  }

  /** `basePrices`: today's price of each listed instrument. */
  const BasePrices: map<string, real> := map[
    "^GSPC" := 5000.0, "^NDX" := 18000.0, "^DJI" := 38000.0,
    "XLK" := 200.0, "XLF" := 40.0, "XLV" := 140.0, "XLE" := 90.0, "XLI" := 120.0,
    "XLY" := 180.0, "XLP" := 75.0, "XLB" := 90.0, "XLU" := 65.0, "XLC" := 75.0, "XLRE" := 40.0
  ]

  /** The price used for a symbol that has no entry in `basePrices`. */
  const FallbackPrice: real := 100.0

  /** Daily volatility of a broad index and of a sector fund. */
  const IndexVolatility: real := 0.015
  const SectorVolatility: real := 0.025

  /** The upward drift applied at every step. */
  const Trend: real := 0.0005

  /** A price table whose every stored price is positive. */
  predicate PositivePrices(prices: map<string, real>)
  {
    forall s :: s in prices ==> prices[s] > 0.0
  }

  /** `prices[sym] || 100` for a table of positive prices: the stored price, or
      the fallback when there is none (a positive price is never replaced). */
  function StartPrice(prices: map<string, real>, sym: string): (price: real)
    requires PositivePrices(prices)
    ensures price > 0.0
    ensures sym in prices ==> price == prices[sym]
    ensures sym !in prices ==> price == FallbackPrice
  {
    if sym in prices && prices[sym] != 0.0 then prices[sym] else FallbackPrice
  }

  /** Every stored base price is positive. */
  lemma BasePricesPositive()
    ensures PositivePrices(BasePrices)
  {
  }

  /** `basePrices[sym] || 100`: the price a symbol's walk starts from. */
  function BasePrice(sym: string): (price: real)
    ensures price > 0.0
    ensures sym in BasePrices ==> price == BasePrices[sym]
    ensures sym !in BasePrices ==> price == FallbackPrice
  {
    BasePricesPositive();
    StartPrice(BasePrices, sym)
  }

  /** `sym.startsWith('^')`: the symbol names a broad index. */
  predicate IsIndexSymbol(sym: string)
  {
    |sym| > 0 && sym[0] == '^'
  }

  function Volatility(sym: string): real
  {
    if IsIndexSymbol(sym) then IndexVolatility else SectorVolatility
  }

  // ---------------------------------------------------------------------------
  // Points and dates

  /** `Math.ceil(totalDays / stepDays)`: the number of steps that cover the period. */
  function PointsCount(p: Period, i: Interval): (n: nat)
    ensures n >= 1
    ensures ((n - 1) as real) < (TotalDays(p) as real) / (StepDays(i) as real) <= n as real
  {
    CeilingDivision(TotalDays(p), StepDays(i));
    (TotalDays(p) + StepDays(i) - 1) / StepDays(i)
  }

  /** Integer division rounded up is the ceiling of the real quotient. */
  lemma CeilingDivision(a: nat, b: nat)
    requires a >= 1 && b >= 1
    ensures (a + b - 1) / b >= 1
    ensures a <= ((a + b - 1) / b) * b < a + b
    ensures ((((a + b - 1) / b) - 1) as real) < (a as real) / (b as real) <= ((a + b - 1) / b) as real
  {
    var q, r := (a + b - 1) / b, (a + b - 1) % b;
    assert q * b + r == a + b - 1;
    assert a <= q * b < a + b;
    var x, y := a as real, b as real;
    assert x <= (q as real) * y;
    assert ((q - 1) as real) * y < x;
  }

  // ---------------------------------------------------------------------------
  // The backward walk

  /** `Math.random()` returns a value in [0, 1). */
  predicate IsDraw(u: real)
  {
    0.0 <= u < 1.0
  }

  predicate AreDraws(us: seq<real>)
  {
    forall k :: 0 <= k < |us| ==> IsDraw(us[k])
  }

  /** One draw per walk step for each of count symbols, n + 1 steps each. */
  predicate ValidDraws(draws: seq<seq<real>>, count: nat, n: nat)
  {
    |draws| == count && forall k :: 0 <= k < count ==> |draws[k]| == n + 1 && AreDraws(draws[k])
  }

  /** The amount one backward step takes off the price. */
  function Change(current: real, sym: string, u: real): real
  {
    current * (Volatility(sym) * (u - 0.5) + Trend)
  }

  /** One backward step: the price one interval earlier than `current`.
      The factor lies in (0.987, 1.012], so prices stay positive. */
  function StepBack(current: real, sym: string, u: real): (earlier: real)
    requires current > 0.0 && IsDraw(u)
    ensures 0.987 * current < earlier <= 1.012 * current
  {
    current - Change(current, sym, u)
  }

  /** Two prices one interval apart: the earlier one is the later one times a
      factor in (0.987, 1.012]. */
  predicate OneStepApart(later: real, earlier: real)
  {
    0.987 * later < earlier <= 1.012 * later
  }

  /** Newest first: every price is one step after the price that follows it. */
  ghost predicate StepsBackward(prices: seq<real>)
  {
    forall i, j :: 0 <= i < j < |prices| && j == i + 1 ==> OneStepApart(prices[i], prices[j])
  }

  /** Oldest first: every price is one step after the price before it. */
  ghost predicate StepsForward(path: seq<real>)
  {
    forall i, j :: 0 <= i < j < |path| && j == i + 1 ==> OneStepApart(path[j], path[i])
  }

  /** The prices the walk visits, newest first, starting at `current`, one per draw. */
  function BackwardWalk(current: real, sym: string, draws: seq<real>): (prices: seq<real>)
    requires current > 0.0 && AreDraws(draws)
    ensures |prices| == |draws|
    ensures |prices| > 0 ==> prices[0] == current
    ensures forall k :: 0 <= k < |prices| ==> prices[k] > 0.0
    ensures StepsBackward(prices)
    decreases |draws|
  {
    if draws == [] then []
    else [current] + BackwardWalk(StepBack(current, sym, draws[0]), sym, draws[1..])
  }

  /** The price path of one symbol, oldest first: the walk from today's price
      `start`, reversed. It ends exactly at `start` whatever the draws. */
  function SymbolPath(start: real, sym: string, draws: seq<real>): (path: seq<real>)
    requires start > 0.0 && AreDraws(draws)
    ensures |path| == |draws|
    ensures |path| > 0 ==> path[|path| - 1] == start
    ensures forall k :: 0 <= k < |path| ==> path[k] > 0.0
    ensures StepsForward(path)
  {
    var walk := BackwardWalk(start, sym, draws);
    ReversedWalkSteps(walk);
    Reversed(walk)
  }

  /** Reversing a walk turns its backward step bounds into bounds between
      consecutive prices of the path. */
  lemma ReversedWalkSteps(walk: seq<real>)
    requires StepsBackward(walk)
    ensures StepsForward(Reversed(walk))
  {
    var path := Reversed(walk);
    forall i, j | 0 <= i < j < |path| && j == i + 1 ensures OneStepApart(path[j], path[i]) {
      var k := |walk| - 1 - j;
      assert path[j] == walk[k] && path[i] == walk[k + 1];
    }
  }

  /** Pushing the current price and stepping back keeps the pushed prices
      followed by the rest of the walk equal to the whole walk. */
  lemma WalkStep(whole: seq<real>, walked: seq<real>, current: real, next: real, sym: string, draws: seq<real>, i: nat)
    requires current > 0.0 && AreDraws(draws) && i < |draws|
    requires next == current - Change(current, sym, draws[i])
    requires walked + BackwardWalk(current, sym, draws[i..]) == whole
    ensures next > 0.0
    ensures (walked + [current]) + BackwardWalk(next, sym, draws[i + 1..]) == whole
  {
    var rest := BackwardWalk(StepBack(current, sym, draws[i]), sym, draws[i + 1..]);
    assert draws[i..][0] == draws[i] && draws[i..][1..] == draws[i + 1..];
    assert BackwardWalk(current, sym, draws[i..]) == [current] + rest;
    assert (walked + [current]) + rest == walked + ([current] + rest);
  }

  /** Lines 42-53 for one symbol: push the current price, step back, and
      finally reverse the pushed prices. */
  method WalkPath(prices: map<string, real>, sym: string, pointsCount: nat, draws: seq<real>) returns (path: seq<real>)
    requires PositivePrices(prices)
    requires |draws| == pointsCount + 1 && AreDraws(draws)
    ensures path == SymbolPath(StartPrice(prices, sym), sym, draws)
  {
    var current := StartPrice(prices, sym);
    ghost var whole := BackwardWalk(current, sym, draws);
    var walked: seq<real> := [];
    var i := 0;
    assert draws[0..] == draws;
    while i <= pointsCount
      invariant 0 <= i <= pointsCount + 1
      invariant current > 0.0
      invariant walked + BackwardWalk(current, sym, draws[i..]) == whole
    {
      var change := Change(current, sym, draws[i]);
      WalkStep(whole, walked, current, current - change, sym, draws, i);
      walked := walked + [current];
      current := current - change;
      i := i + 1;
    }
    assert draws[i..] == [] && walked + [] == walked;
    path := Reversed(walked);
  }

  // ---------------------------------------------------------------------------
  // All symbols' paths

  /** A price path of n + 1 positive prices. */
  predicate ValidPath(path: seq<real>, n: nat)
  {
    |path| == n + 1 && forall k :: 0 <= k <= n ==> path[k] > 0.0
  }

  /** Every requested symbol has a path, and every path has n + 1 positive prices. */
  predicate WellFormedPaths(paths: map<string, seq<real>>, symbols: seq<string>, n: nat)
  {
    && (forall s :: s in symbols ==> s in paths)
    && (forall s :: s in paths ==> ValidPath(paths[s], n))
  }

  /** `symbolPaths` after the first k symbols of the loop of lines 41-54. */
  function PathsUpTo(prices: map<string, real>, symbols: seq<string>, draws: seq<seq<real>>, n: nat, k: nat)
    : map<string, seq<real>>
    requires PositivePrices(prices) && ValidDraws(draws, |symbols|, n) && k <= |symbols|
    decreases k
  {
    if k == 0 then map[]
    else
      var sym := symbols[k - 1];
      PathsUpTo(prices, symbols, draws, n, k - 1)[sym := SymbolPath(StartPrice(prices, sym), sym, draws[k - 1])]
  }

  /** After k symbols, exactly the first k symbols have paths, each of n + 1
      positive prices ending at the symbol's price in the table. */
  lemma {:induction false} PathsUpToFacts(prices: map<string, real>, symbols: seq<string>, draws: seq<seq<real>>, n: nat, k: nat)
    requires PositivePrices(prices) && ValidDraws(draws, |symbols|, n) && k <= |symbols|
    ensures var paths := PathsUpTo(prices, symbols, draws, n, k);
      && (forall i :: 0 <= i < k ==> symbols[i] in paths)
      && (forall s :: s in paths ==> s in symbols && ValidPath(paths[s], n) && paths[s][n] == StartPrice(prices, s))
    decreases k
  {
    if k > 0 {
      var sym := symbols[k - 1];
      var before := PathsUpTo(prices, symbols, draws, n, k - 1);
      var path := SymbolPath(StartPrice(prices, sym), sym, draws[k - 1]);
      assert |draws[k - 1]| == n + 1 && AreDraws(draws[k - 1]);
      SymbolPathValid(prices, sym, draws[k - 1], n);
      PathsUpToFacts(prices, symbols, draws, n, k - 1);
      assert PathsUpTo(prices, symbols, draws, n, k) == before[sym := path];
      StoredPathsStep(prices, symbols, before, path, n, k);
    }
  }

  /** A symbol's path is a valid path of n + 1 prices ending at its price in the table. */
  lemma SymbolPathValid(prices: map<string, real>, sym: string, draws: seq<real>, n: nat)
    requires PositivePrices(prices) && |draws| == n + 1 && AreDraws(draws)
    ensures var path := SymbolPath(StartPrice(prices, sym), sym, draws);
      ValidPath(path, n) && path[n] == StartPrice(prices, sym)
  {
  }

  /** Storing a valid path for the k-th requested symbol extends the facts
      about the first k - 1 symbols to the first k. */
  lemma StoredPathsStep(prices: map<string, real>, symbols: seq<string>, before: map<string, seq<real>>,
                        path: seq<real>, n: nat, k: nat)
    requires PositivePrices(prices) && 0 < k <= |symbols|
    requires ValidPath(path, n) && path[n] == StartPrice(prices, symbols[k - 1])
    requires forall i :: 0 <= i < k - 1 ==> symbols[i] in before
    requires forall s :: s in before ==> s in symbols && ValidPath(before[s], n) && before[s][n] == StartPrice(prices, s)
    ensures var paths := before[symbols[k - 1] := path];
      && (forall i :: 0 <= i < k ==> symbols[i] in paths)
      && (forall s :: s in paths ==> s in symbols && ValidPath(paths[s], n) && paths[s][n] == StartPrice(prices, s))
  {
    assert symbols[k - 1] in symbols;
  }

  /** `symbolPaths` after the loop of lines 41-54: each requested symbol's
      path, ending at its price in the table. */
  function PathsFor(prices: map<string, real>, symbols: seq<string>, draws: seq<seq<real>>, n: nat)
    : (paths: map<string, seq<real>>)
    requires PositivePrices(prices) && ValidDraws(draws, |symbols|, n)
    ensures paths.Keys == set s | s in symbols
    ensures WellFormedPaths(paths, symbols, n)
    ensures forall s :: s in symbols ==> paths[s][n] == StartPrice(prices, s)
  {
    PathsUpToFacts(prices, symbols, draws, n, |symbols|);
    PathsUpTo(prices, symbols, draws, n, |symbols|)
  }

  /** After k symbols, a symbol at position j < k that does not occur again
      before k has the path walked for position j. */
  lemma {:induction false} PathsUpToKeepsLast(prices: map<string, real>, symbols: seq<string>, draws: seq<seq<real>>, n: nat, j: nat, k: nat)
    requires PositivePrices(prices) && ValidDraws(draws, |symbols|, n) && j < k <= |symbols|
    requires forall i :: j < i < k ==> symbols[i] != symbols[j]
    ensures var paths := PathsUpTo(prices, symbols, draws, n, k);
      symbols[j] in paths && paths[symbols[j]] == SymbolPath(StartPrice(prices, symbols[j]), symbols[j], draws[j])
    decreases k
  {
    var sym := symbols[k - 1];
    var before := PathsUpTo(prices, symbols, draws, n, k - 1);
    var path := SymbolPath(StartPrice(prices, sym), sym, draws[k - 1]);
    assert PathsUpTo(prices, symbols, draws, n, k) == before[sym := path];
    if k - 1 != j {
      PathsUpToKeepsLast(prices, symbols, draws, n, j, k - 1);
      assert sym != symbols[j];
    }
  }

  /** A symbol requested more than once keeps the path walked for its last
      occurrence: the assignment of line 53 overwrites the earlier ones. */
  lemma PathsForLastOccurrence(prices: map<string, real>, symbols: seq<string>, draws: seq<seq<real>>, n: nat, j: nat)
    requires PositivePrices(prices) && ValidDraws(draws, |symbols|, n) && j < |symbols|
    requires forall i :: j < i < |symbols| ==> symbols[i] != symbols[j]
    ensures PathsFor(prices, symbols, draws, n)[symbols[j]] == SymbolPath(StartPrice(prices, symbols[j]), symbols[j], draws[j])
  {
    PathsUpToKeepsLast(prices, symbols, draws, n, j, |symbols|);
  }

  /** The loop of lines 41-54. */
  method GeneratePaths(prices: map<string, real>, symbols: seq<string>, pointsCount: nat, draws: seq<seq<real>>)
    returns (paths: map<string, seq<real>>)
    requires PositivePrices(prices) && ValidDraws(draws, |symbols|, pointsCount)
    ensures paths == PathsFor(prices, symbols, draws, pointsCount)
  {
    paths := map[];
    var k := 0;
    while k < |symbols|
      invariant 0 <= k <= |symbols|
      invariant paths == PathsUpTo(prices, symbols, draws, pointsCount, k)
    {
      var path := WalkPath(prices, symbols[k], pointsCount, draws[k]);
      paths := paths[symbols[k] := path];
      k := k + 1;
    }
  }

  // ---------------------------------------------------------------------------
  // Chart points

  /** The percent change from `initial` to `current`. */
  function RelativePerformance(initial: real, current: real): (pct: real)
    requires initial > 0.0
    ensures pct == 0.0 <==> current == initial
    ensures pct > 0.0 <==> current > initial
  {
    (current - initial) / initial * 100.0
  }

  /** Chart point i: its date offset and every symbol's change since point 0. */
  function ChartPoint(symbols: seq<string>, paths: map<string, seq<real>>, n: nat, stepDays: nat, i: nat): MarketDataPoint
    requires WellFormedPaths(paths, symbols, n) && i <= n
  {
    MarketDataPoint((n - i) * stepDays, map s | s in symbols :: RelativePerformance(paths[s][0], paths[s][i]))
  }

  /** A chart of n + 1 points: point i lies (n - i) * step days before today,
      so the dates strictly increase and the last point is today; every point
      carries a value for every requested symbol and no other, and at point 0
      every value is 0. */
  ghost predicate ChartShape(data: seq<MarketDataPoint>, symbols: seq<string>, n: nat, step: nat)
  {
    && |data| == n + 1
    && (forall i :: 0 <= i < |data| ==> data[i].daysBeforeNow == (n - i) * step)
    && (forall i, j :: 0 <= i < j < |data| ==> data[i].daysBeforeNow > data[j].daysBeforeNow)
    && data[n].daysBeforeNow == 0
    && (forall i :: 0 <= i < |data| ==> data[i].values.Keys == set s | s in symbols)
    && (forall s :: s in symbols ==> s in data[0].values && data[0].values[s] == 0.0)
  }

  /** A list of the chart points 0 to n has that shape. */
  lemma PointsHaveChartShape(data: seq<MarketDataPoint>, symbols: seq<string>, paths: map<string, seq<real>>, n: nat, step: nat)
    requires WellFormedPaths(paths, symbols, n) && step >= 1
    requires |data| == n + 1
    requires forall i :: 0 <= i <= n ==> data[i] == ChartPoint(symbols, paths, n, step, i)
    ensures ChartShape(data, symbols, n, step)
  {
    forall i | 0 <= i < |data|
      ensures data[i].daysBeforeNow == (n - i) * step
      ensures data[i].values.Keys == set s | s in symbols
    {
      assert data[i] == ChartPoint(symbols, paths, n, step, i);
    }
    forall i, j | 0 <= i < j < |data| ensures data[i].daysBeforeNow > data[j].daysBeforeNow {
      assert (n - i) * step == (n - j) * step + (j - i) * step;
    }
    forall s | s in symbols ensures s in data[0].values && data[0].values[s] == 0.0 {
      assert data[0] == ChartPoint(symbols, paths, n, step, 0);
      assert s in paths && paths[s][0] > 0.0;
    }
  }

  /** The chart: points 0 to n. With a step of at least one day it has the
      shape `ChartShape` describes. */
  function ChartPoints(symbols: seq<string>, paths: map<string, seq<real>>, n: nat, stepDays: nat): (data: seq<MarketDataPoint>)
    requires WellFormedPaths(paths, symbols, n)
    ensures |data| == n + 1
    ensures forall i :: 0 <= i <= n ==> data[i] == ChartPoint(symbols, paths, n, stepDays, i)
    ensures stepDays >= 1 ==> ChartShape(data, symbols, n, stepDays)
  {
    var data := seq(n + 1, i requires 0 <= i <= n => ChartPoint(symbols, paths, n, stepDays, i));
    assert stepDays >= 1 ==> ChartShape(data, symbols, n, stepDays) by {
      if stepDays >= 1 {
        PointsHaveChartShape(data, symbols, paths, n, stepDays);
      }
    }
    data
  }

  /** The loop of lines 57-74: one point per index, one value per symbol. */
  method AssemblePoints(symbols: seq<string>, paths: map<string, seq<real>>, pointsCount: nat, stepDays: nat)
    returns (data: seq<MarketDataPoint>)
    requires WellFormedPaths(paths, symbols, pointsCount)
    ensures data == ChartPoints(symbols, paths, pointsCount, stepDays)
  {
    data := [];
    var i := 0;
    while i <= pointsCount
      invariant 0 <= i <= pointsCount + 1
      invariant |data| == i
      invariant forall j :: 0 <= j < i ==> data[j] == ChartPoint(symbols, paths, pointsCount, stepDays, j)
    {
      var values: map<string, real> := map[];
      var k := 0;
      while k < |symbols|
        invariant 0 <= k <= |symbols|
        invariant values == map s | s in symbols[..k] :: RelativePerformance(paths[s][0], paths[s][i])
      {
        var sym := symbols[k];
        var initialPrice := paths[sym][0];
        var currentPrice := paths[sym][i];
        assert symbols[..k + 1] == symbols[..k] + [sym];
        values := values[sym := RelativePerformance(initialPrice, currentPrice)];
        k := k + 1;
      }
      assert symbols[..k] == symbols;
      data := data + [MarketDataPoint((pointsCount - i) * stepDays, values)];
      i := i + 1;
    }
  }

  // ---------------------------------------------------------------------------
  // Summary

  /** What the summary row of sym says: the last price of its path, the percent
      change over the whole path, and the name and colour of its instrument
      (for `TICKERS` the instrument listed under that symbol, by `FindListed`). */
  predicate Describes(stat: SummaryStats, tickers: seq<TickerInfo>, sym: string, path: seq<real>)
    requires |path| > 0 && path[0] > 0.0
  {
    && stat.symbol == sym
    && stat.lastPrice == path[|path| - 1]
    && stat.percentChange == RelativePerformance(path[0], path[|path| - 1])
    && var ticker := FindTicker(tickers, sym);
       ticker.Some? && stat.name == ticker.value.name && stat.color == ticker.value.color
  }

  /** The `symbols.map` of lines 77-90. It fails at the first symbol that names
      no listed instrument, where the source dereferences the missing result of
      `find`. */
  function Summarize(symbols: seq<string>, tickers: seq<TickerInfo>, paths: map<string, seq<real>>, n: nat)
    : (r: Result<seq<SummaryStats>>)
    requires WellFormedPaths(paths, symbols, n)
    ensures r.Ok? <==> forall s :: s in symbols ==> FindTicker(tickers, s).Some?
    ensures r.Ok? ==> |r.value| == |symbols|
    ensures r.Ok? ==> forall k :: 0 <= k < |symbols| ==> Describes(r.value[k], tickers, symbols[k], paths[symbols[k]])
    ensures r.Err? ==> exists k :: 0 <= k < |symbols| && symbols[k] == r.error.symbol && FindTicker(tickers, symbols[k]).None?
                                   && forall j :: 0 <= j < k ==> FindTicker(tickers, symbols[j]).Some?
    decreases |symbols|
  {
    if symbols == [] then Ok([])
    else
      var sym := symbols[0];
      assert forall s :: s in symbols[1..] ==> s in symbols;
      assert forall k :: 0 < k < |symbols| ==> symbols[k] == symbols[1..][k - 1];
      match FindTicker(tickers, sym)
      case None =>
        assert symbols[0] in symbols;
        Err(UnknownTicker(sym))
      case Some(ticker) =>
        var path := paths[sym];
        var lastPrice := path[|path| - 1];
        var firstPrice := path[0];
        var stat := SummaryStats(sym, ticker.name, lastPrice, RelativePerformance(firstPrice, lastPrice), ticker.color);
        assert Describes(stat, tickers, sym, path);
        match Summarize(symbols[1..], tickers, paths, n)
        case Err(e) => Err(e)
        case Ok(rest) =>
          var rows := [stat] + rest;
          assert forall k :: 0 < k < |symbols| ==> rows[k] == rest[k - 1];
          Ok(rows)
  }

  // ---------------------------------------------------------------------------
  // The whole request

  /** What `fetchMarketData(symbols, period, interval)` resolves to, given the
      draws, when names and colours come from the instrument table `tickers`
      and today's prices from the table `prices`. */
  function GenerateFrom(tickers: seq<TickerInfo>, prices: map<string, real>, symbols: seq<string>,
                        period: Period, interval: Interval, draws: seq<seq<real>>): Result<MarketData>
    requires PositivePrices(prices) && ValidDraws(draws, |symbols|, PointsCount(period, interval))
  {
    var n := PointsCount(period, interval);
    var paths := PathsFor(prices, symbols, draws, n);
    match Summarize(symbols, tickers, paths, n)
    case Err(e) => Err(e)
    case Ok(summary) => Ok(MarketData(ChartPoints(symbols, paths, n, StepDays(interval)), summary))
  }

  /** What `fetchMarketData(symbols, period, interval)` resolves to, given the draws. */
  function Generate(symbols: seq<string>, period: Period, interval: Interval, draws: seq<seq<real>>): Result<MarketData>
    requires ValidDraws(draws, |symbols|, PointsCount(period, interval))
  {
    BasePricesPositive();
    GenerateFrom(Tickers, BasePrices, symbols, period, interval, draws)
  }

  /** The body of `fetchMarketData` (lines 17-92) with names and colours from
      `tickers` and today's prices from `prices`. */
  method FetchFrom(tickers: seq<TickerInfo>, prices: map<string, real>, symbols: seq<string>,
                   period: Period, interval: Interval, draws: seq<seq<real>>)
    returns (r: Result<MarketData>)
    requires PositivePrices(prices) && ValidDraws(draws, |symbols|, PointsCount(period, interval))
    ensures r == GenerateFrom(tickers, prices, symbols, period, interval, draws)
  {
    var totalDays := TotalDays(period);
    var stepDays := StepDays(interval);
    var pointsCount := (totalDays + stepDays - 1) / stepDays;
    assert pointsCount == PointsCount(period, interval);
    var paths := GeneratePaths(prices, symbols, pointsCount, draws);
    var data := AssemblePoints(symbols, paths, pointsCount, stepDays);
    var summary := Summarize(symbols, tickers, paths, pointsCount);
    match summary {
      case Err(e) => r := Err(e);
      case Ok(rows) => r := Ok(MarketData(data, rows));
    }
  }

  /** `fetchMarketData` (lines 9-93), without the artificial delay. */
  method FetchMarketData(symbols: seq<string>, period: Period, interval: Interval, draws: seq<seq<real>>)
    returns (r: Result<MarketData>)
    requires ValidDraws(draws, |symbols|, PointsCount(period, interval))
    ensures r == Generate(symbols, period, interval, draws)
  {
    BasePricesPositive();
    r := FetchFrom(Tickers, BasePrices, symbols, period, interval, draws);
  }

  // ---------------------------------------------------------------------------
  // Facts about the reference tables that the generator relies on

  /** Every listed instrument has a stored base price, so the fallback price is
      never used for one. */
  lemma EveryTickerHasBasePrice()
    ensures forall k :: 0 <= k < |Tickers| ==> Tickers[k].symbol in BasePrices
    ensures forall k :: 0 <= k < |Tickers| ==> BasePrice(Tickers[k].symbol) == BasePrices[Tickers[k].symbol]
  {
  }

  /** A leading '^' marks exactly the indices, so an index walks with the index
      volatility and a sector fund with the sector volatility. */
  lemma CaretMarksIndices()
    ensures forall k :: 0 <= k < |Tickers| ==> (Tickers[k].category == Index <==> IsIndexSymbol(Tickers[k].symbol))
    ensures forall k :: 0 <= k < |Tickers| ==>
      Volatility(Tickers[k].symbol) == if Tickers[k].category == Index then IndexVolatility else SectorVolatility
  {
  }

  /** `PERIODS` is ordered by length: the day counts strictly increase. */
  lemma PeriodDaysIncrease()
    ensures forall i, j :: 0 <= i < j < |Periods| ==> TotalDays(Periods[i]) < TotalDays(Periods[j])
  {
  }

  /** Worked examples of the point count. */
  lemma PointsCountExamples()
    ensures PointsCount(FiveDays, Daily) + 1 == 6
    ensures PointsCount(TwoYears, Monthly) + 1 == 26
    ensures PointsCount(OneDay, Monthly) + 1 == 2
    ensures PointsCount(OneYear, Weekly) + 1 == 54
  {
  }

  // ---------------------------------------------------------------------------
  // Properties of a whole request

  /** A request fails exactly when some requested symbol is not listed, and then
      it reports the first such symbol. */
  lemma GenerateFailsOnlyOnUnlisted(symbols: seq<string>, period: Period, interval: Interval, draws: seq<seq<real>>)
    requires ValidDraws(draws, |symbols|, PointsCount(period, interval))
    ensures Generate(symbols, period, interval, draws).Ok? <==> forall s :: s in symbols ==> IsListed(s)
    ensures var r := Generate(symbols, period, interval, draws);
      r.Err? ==> exists k :: 0 <= k < |symbols| && symbols[k] == r.error.symbol && !IsListed(symbols[k])
                             && forall j :: 0 <= j < k ==> IsListed(symbols[j])
  {
    BasePricesPositive();
    var n := PointsCount(period, interval);
    var paths := PathsFor(BasePrices, symbols, draws, n);
    var r := Generate(symbols, period, interval, draws);
    var summary := Summarize(symbols, Tickers, paths, n);
    assert r.Ok? == summary.Ok? && (r.Err? ==> r.error == summary.error);
  }

  /** Each summary row's percent change is the value the last chart point
      shows for its symbol, and its last price is the last price of the path. */
  lemma SummaryMatchesLastPoint(symbols: seq<string>, tickers: seq<TickerInfo>, paths: map<string, seq<real>>, n: nat, step: nat)
    requires WellFormedPaths(paths, symbols, n)
    requires Summarize(symbols, tickers, paths, n).Ok?
    ensures var rows, last := Summarize(symbols, tickers, paths, n).value, ChartPoints(symbols, paths, n, step)[n];
      forall k :: 0 <= k < |symbols| ==>
        && rows[k].symbol == symbols[k]
        && rows[k].lastPrice == paths[symbols[k]][n]
        && rows[k].percentChange == last.values[symbols[k]]
  {
    var rows, last := Summarize(symbols, tickers, paths, n).value, ChartPoints(symbols, paths, n, step)[n];
    forall k | 0 <= k < |symbols|
      ensures rows[k].lastPrice == paths[symbols[k]][n] && rows[k].percentChange == last.values[symbols[k]]
    {
      assert Describes(rows[k], tickers, symbols[k], paths[symbols[k]]);
    }
  }

  /** The request's chart: ceil(days / step) + 1 points, dated as above, the
      first of them at least the whole period before today. */
  lemma GeneratedChartShape(tickers: seq<TickerInfo>, prices: map<string, real>, symbols: seq<string>,
                            period: Period, interval: Interval, draws: seq<seq<real>>)
    requires PositivePrices(prices) && ValidDraws(draws, |symbols|, PointsCount(period, interval))
    requires GenerateFrom(tickers, prices, symbols, period, interval, draws).Ok?
    ensures var data := GenerateFrom(tickers, prices, symbols, period, interval, draws).value.data;
      && ChartShape(data, symbols, PointsCount(period, interval), StepDays(interval))
      && data[0].daysBeforeNow >= TotalDays(period)
  {
    var n, step := PointsCount(period, interval), StepDays(interval);
    var paths := PathsFor(prices, symbols, draws, n);
    assert GenerateFrom(tickers, prices, symbols, period, interval, draws).value.data == ChartPoints(symbols, paths, n, step);
    CeilingDivision(TotalDays(period), step);
  }

  /** The summary has one row per requested symbol, in request order; each row's
      last price is the symbol's price in the table and its percent change is
      the value the last chart point shows for that symbol. */
  lemma GeneratedSummaryMatchesChart(tickers: seq<TickerInfo>, prices: map<string, real>, symbols: seq<string>,
                                     period: Period, interval: Interval, draws: seq<seq<real>>)
    requires PositivePrices(prices) && ValidDraws(draws, |symbols|, PointsCount(period, interval))
    requires GenerateFrom(tickers, prices, symbols, period, interval, draws).Ok?
    ensures var md := GenerateFrom(tickers, prices, symbols, period, interval, draws).value;
      var n := PointsCount(period, interval);
      && |md.summary| == |symbols|
      && forall k :: 0 <= k < |symbols| ==>
           && md.summary[k].symbol == symbols[k]
           && md.summary[k].lastPrice == StartPrice(prices, symbols[k])
           && md.summary[k].percentChange == md.data[n].values[symbols[k]]
  {
    var n, step := PointsCount(period, interval), StepDays(interval);
    var paths := PathsFor(prices, symbols, draws, n);
    var md := GenerateFrom(tickers, prices, symbols, period, interval, draws).value;
    assert md.data == ChartPoints(symbols, paths, n, step);
    assert md.summary == Summarize(symbols, tickers, paths, n).value;
    SummaryMatchesLastPoint(symbols, tickers, paths, n, step);
  }

  /** Whether a request succeeds does not depend on the draws: it fails exactly
      when a requested symbol is missing from the instrument table. */
  lemma GenerateOkIffListed(tickers: seq<TickerInfo>, prices: map<string, real>, symbols: seq<string>,
                            period: Period, interval: Interval, draws: seq<seq<real>>)
    requires PositivePrices(prices) && ValidDraws(draws, |symbols|, PointsCount(period, interval))
    ensures GenerateFrom(tickers, prices, symbols, period, interval, draws).Ok?
        <==> forall s :: s in symbols ==> FindTicker(tickers, s).Some?
  {
    var n := PointsCount(period, interval);
    var paths := PathsFor(prices, symbols, draws, n);
    assert GenerateFrom(tickers, prices, symbols, period, interval, draws).Ok? == Summarize(symbols, tickers, paths, n).Ok?;
  }

  /** Everything but the prices is independent of the draws: two requests with
      the same arguments succeed or fail together and give charts of the same
      length, dates and symbols. */
  lemma ShapeIndependentOfDraws(tickers: seq<TickerInfo>, prices: map<string, real>, symbols: seq<string>,
                                period: Period, interval: Interval, d1: seq<seq<real>>, d2: seq<seq<real>>)
    requires PositivePrices(prices)
    requires ValidDraws(d1, |symbols|, PointsCount(period, interval))
    requires ValidDraws(d2, |symbols|, PointsCount(period, interval))
    ensures GenerateFrom(tickers, prices, symbols, period, interval, d1).Ok?
         == GenerateFrom(tickers, prices, symbols, period, interval, d2).Ok?
    ensures GenerateFrom(tickers, prices, symbols, period, interval, d1).Ok? ==>
      var a := GenerateFrom(tickers, prices, symbols, period, interval, d1).value;
      var b := GenerateFrom(tickers, prices, symbols, period, interval, d2).value;
      && |a.data| == |b.data|
      && (forall i :: 0 <= i < |a.data| ==> a.data[i].daysBeforeNow == b.data[i].daysBeforeNow)
      && (forall i :: 0 <= i < |a.data| ==> a.data[i].values.Keys == b.data[i].values.Keys)
      && |a.summary| == |b.summary|
  {
    GenerateOkIffListed(tickers, prices, symbols, period, interval, d1);
    GenerateOkIffListed(tickers, prices, symbols, period, interval, d2);
    if GenerateFrom(tickers, prices, symbols, period, interval, d1).Ok? {
      var n, step := PointsCount(period, interval), StepDays(interval);
      var a := GenerateFrom(tickers, prices, symbols, period, interval, d1).value;
      var b := GenerateFrom(tickers, prices, symbols, period, interval, d2).value;
      GeneratedChartShape(tickers, prices, symbols, period, interval, d1);
      GeneratedChartShape(tickers, prices, symbols, period, interval, d2);
      SameChartShape(a.data, b.data, symbols, n, step);
      assert |a.summary| == |b.summary| by {
        GeneratedSummaryMatchesChart(tickers, prices, symbols, period, interval, d1);
        GeneratedSummaryMatchesChart(tickers, prices, symbols, period, interval, d2);
      }
    }
  }

  /** Two charts of the same shape agree on length, dates and symbols. */
  lemma SameChartShape(a: seq<MarketDataPoint>, b: seq<MarketDataPoint>, symbols: seq<string>, n: nat, step: nat)
    requires ChartShape(a, symbols, n, step) && ChartShape(b, symbols, n, step)
    ensures |a| == |b|
    ensures forall i :: 0 <= i < |a| ==> a[i].daysBeforeNow == b[i].daysBeforeNow && a[i].values.Keys == b[i].values.Keys
  {
  }

  /** A chart of that shape has n + 1 points and starts at 0 for every symbol. */
  lemma ChartStartsAtZero(data: seq<MarketDataPoint>, symbols: seq<string>, n: nat, step: nat, k: nat)
    requires ChartShape(data, symbols, n, step) && k < |symbols|
    ensures |data| == n + 1 && symbols[k] in data[0].values && data[0].values[symbols[k]] == 0.0
  {
    assert symbols[k] in symbols;
  }

  /** The S&P 500 starts its walk at 5000. */
  lemma IndexStartPrice()
    ensures PositivePrices(BasePrices) && StartPrice(BasePrices, "^GSPC") == 5000.0
  {
    BasePricesPositive();
  }

  /** Requesting the S&P 500 alone over five days at a daily step: six points,
      point 0 at 0 %, and a last price of 5000, whatever the draws. */
  lemma SingleIndexScenario(draws: seq<seq<real>>)
    requires ValidDraws(draws, 1, PointsCount(FiveDays, Daily))
    ensures Generate(["^GSPC"], FiveDays, Daily, draws).Ok?
    ensures var md := Generate(["^GSPC"], FiveDays, Daily, draws).value;
      |md.data| == 6 && md.data[0].values["^GSPC"] == 0.0 && md.summary[0].lastPrice == 5000.0
  {
    var symbols := ["^GSPC"];
    BasePricesPositive();
    assert Generate(symbols, FiveDays, Daily, draws) == GenerateFrom(Tickers, BasePrices, symbols, FiveDays, Daily, draws);
    assert GenerateFrom(Tickers, BasePrices, symbols, FiveDays, Daily, draws).Ok? by {
      assert FindTicker(Tickers, "^GSPC").Some? by { assert Tickers[0].symbol == "^GSPC"; }
      GenerateOkIffListed(Tickers, BasePrices, symbols, FiveDays, Daily, draws);
    }
    var md := GenerateFrom(Tickers, BasePrices, symbols, FiveDays, Daily, draws).value;
    assert PointsCount(FiveDays, Daily) == 5 by { PointsCountExamples(); }
    assert |md.data| == 6 && md.data[0].values["^GSPC"] == 0.0 by {
      GeneratedChartShape(Tickers, BasePrices, symbols, FiveDays, Daily, draws);
      ChartStartsAtZero(md.data, symbols, PointsCount(FiveDays, Daily), StepDays(Daily), 0);
    }
    assert md.summary[0].lastPrice == StartPrice(BasePrices, "^GSPC") by {
      GeneratedSummaryMatchesChart(Tickers, BasePrices, symbols, FiveDays, Daily, draws);
    }
    IndexStartPrice();
  }
}
