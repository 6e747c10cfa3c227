/** The state updates of the application component (App.tsx): the initial
    state, the ticker toggle and the period and interval setters, each a pure
    function from the previous state to the next. */
module App {
  import opened Types
  import opened Arrays
  import opened Constants
  import MarketData

  /** The tickers selected when the dashboard opens. */
  const DefaultSelection: seq<string> := ["^GSPC", "^NDX", "XLK", "XLF", "XLE"]

  /** The initial `AppState`: six months of daily points, nothing loaded yet. */
  const InitialState: AppState := AppState(DefaultSelection, SixMonths, Daily, [], [], true, "")

  /** The update `handleTickerToggle(symbol)` hands to `setState`: a selected
      symbol is filtered out, an unselected one is appended, and an update
      that would leave nothing selected is refused by returning `prev`. */
  function ToggleTicker(prev: AppState, symbol: string): (next: AppState)
    ensures next == prev.(selectedTickers := next.selectedTickers)
    ensures next.selectedTickers != []
    ensures symbol !in prev.selectedTickers ==> next.selectedTickers == prev.selectedTickers + [symbol]
    ensures symbol in prev.selectedTickers ==>
      (next == prev <==> forall s :: s in prev.selectedTickers ==> s == symbol)
    ensures symbol in prev.selectedTickers && next != prev ==>
      && symbol !in next.selectedTickers
      && next.selectedTickers == RemoveAll(prev.selectedTickers, symbol)
  {
    var isSelected := symbol in prev.selectedTickers;
    var newSelected := if isSelected then RemoveAll(prev.selectedTickers, symbol) else prev.selectedTickers + [symbol];
    if newSelected == [] then
      assert prev.selectedTickers[0] in prev.selectedTickers;
      prev
    else
      assert isSelected ==> newSelected[0] in newSelected && symbol !in newSelected;
      prev.(selectedTickers := newSelected)
  }

  /** The update `handlePeriodChange(period)` hands to `setState`. */
  function ChangePeriod(prev: AppState, period: Period): (next: AppState)
    ensures next.period == period
    ensures && next.selectedTickers == prev.selectedTickers && next.interval == prev.interval
            && next.data == prev.data && next.summary == prev.summary
            && next.loading == prev.loading && next.aiInsight == prev.aiInsight
  {
    prev.(period := period)
  }

  /** The update `handleIntervalChange(interval)` hands to `setState`. */
  function ChangeInterval(prev: AppState, interval: Interval): (next: AppState)
    ensures next.interval == interval
    ensures && next.selectedTickers == prev.selectedTickers && next.period == prev.period
            && next.data == prev.data && next.summary == prev.summary
            && next.loading == prev.loading && next.aiInsight == prev.aiInsight
  {
    prev.(interval := interval)
  }

  /** The component's three state handlers. The sidebar only calls the ticker
      toggle; the period and interval handlers are passed to it but never
      called, so sequences of these actions cover more states than the
      dashboard can reach. */
  datatype Action = Toggle(symbol: string) | SetPeriod(period: Period) | SetInterval(interval: Interval)

  /** The state after one handler call. */
  function Apply(prev: AppState, action: Action): (next: AppState)
    ensures next.data == prev.data && next.summary == prev.summary
    ensures next.loading == prev.loading && next.aiInsight == prev.aiInsight
    ensures prev.selectedTickers != [] ==> next.selectedTickers != []
  {
    match action
    case Toggle(symbol) => ToggleTicker(prev, symbol)
    case SetPeriod(period) => ChangePeriod(prev, period)
    case SetInterval(interval) => ChangeInterval(prev, interval)
  }

  /** The state after a sequence of handler calls, first call first. */
  function Run(start: AppState, actions: seq<Action>): (final: AppState)
    ensures final.data == start.data && final.summary == start.summary
    ensures final.loading == start.loading && final.aiInsight == start.aiInsight
    ensures start.selectedTickers != [] ==> final.selectedTickers != []
    decreases |actions|
  {
    if actions == [] then start else Run(Apply(start, actions[0]), actions[1..])
  }

  // ---------------------------------------------------------------------------
  // The selection invariant

  /** Toggling never introduces a duplicate into a duplicate-free selection. */
  lemma ToggleKeepsNoDuplicates(prev: AppState, symbol: string)
    requires NoDuplicates(prev.selectedTickers)
    ensures NoDuplicates(ToggleTicker(prev, symbol).selectedTickers)
  {
    if symbol in prev.selectedTickers {
      RemoveAllKeepsNoDuplicates(prev.selectedTickers, symbol);
    } else {
      AppendKeepsNoDuplicates(prev.selectedTickers, symbol);
    }
  }

  /** Toggling off the one occurrence of a selected symbol leaves the symbols
      before and after it, in their order. */
  lemma ToggleOffKeepsOrder(prev: AppState, before: seq<string>, symbol: string, after: seq<string>)
    requires prev.selectedTickers == before + [symbol] + after
    requires symbol !in before && symbol !in after
    requires before + after != []
    ensures ToggleTicker(prev, symbol).selectedTickers == before + after
  {
    RemoveAllKeepsOrder(before, symbol, after);
  }

  /** Toggling an unselected symbol on and then off restores the selection,
      provided something else was selected (otherwise the second toggle would
      empty the selection and is refused). */
  lemma ToggleTwiceRestores(prev: AppState, symbol: string)
    requires symbol !in prev.selectedTickers
    requires prev.selectedTickers != []
    ensures ToggleTicker(ToggleTicker(prev, symbol), symbol) == prev
  {
    var once := ToggleTicker(prev, symbol);
    assert once.selectedTickers == prev.selectedTickers + [symbol] + [];
    ToggleOffKeepsOrder(once, prev.selectedTickers, symbol, []);
    assert prev.selectedTickers + [] == prev.selectedTickers;
  }

  /** The period and interval setters commute with a toggle and with each other. */
  lemma SettersCommute(state: AppState, symbol: string, period: Period, interval: Interval)
    ensures ChangePeriod(ToggleTicker(state, symbol), period) == ToggleTicker(ChangePeriod(state, period), symbol)
    ensures ChangeInterval(ToggleTicker(state, symbol), interval) == ToggleTicker(ChangeInterval(state, interval), symbol)
    ensures ChangePeriod(ChangeInterval(state, interval), period) == ChangeInterval(ChangePeriod(state, period), interval)
  {
  }

  /** The selection stays non-empty and duplicate-free whatever the user does. */
  lemma {:induction false} RunKeepsSelectionValid(start: AppState, actions: seq<Action>)
    requires start.selectedTickers != [] && NoDuplicates(start.selectedTickers)
    ensures Run(start, actions).selectedTickers != []
    ensures NoDuplicates(Run(start, actions).selectedTickers)
    decreases |actions|
  {
    if actions != [] {
      var next := Apply(start, actions[0]);
      if actions[0].Toggle? {
        ToggleKeepsNoDuplicates(start, actions[0].symbol);
      }
      RunKeepsSelectionValid(next, actions[1..]);
    }
  }

  // ---------------------------------------------------------------------------
  // Listed selections

  predicate AllListed(symbols: seq<string>)
  {
    forall s :: s in symbols ==> IsListed(s)
  }

  /** Only symbols offered by the sidebar are toggled. */
  predicate TogglesListed(actions: seq<Action>)
  {
    forall k :: 0 <= k < |actions| ==> actions[k].Toggle? ==> IsListed(actions[k].symbol)
  }

  /** Toggling a listed symbol keeps every selected symbol listed. */
  lemma ToggleKeepsListed(prev: AppState, symbol: string)
    requires AllListed(prev.selectedTickers) && IsListed(symbol)
    ensures AllListed(ToggleTicker(prev, symbol).selectedTickers)
  {
  }

  /** The initial state selects five distinct listed tickers, six months at a
      daily step, and starts loading. */
  lemma InitialStateFacts()
    ensures |InitialState.selectedTickers| == 5
    ensures NoDuplicates(InitialState.selectedTickers)
    ensures AllListed(InitialState.selectedTickers)
    ensures InitialState.period.Label() == "6mo" && InitialState.interval.Label() == "1d"
    ensures InitialState.loading && InitialState.data == [] && InitialState.summary == []
  {
    forall s | s in DefaultSelection ensures IsListed(s) {
      var k := if s == "^GSPC" then 0 else if s == "^NDX" then 1 else if s == "XLK" then 3 else if s == "XLF" then 4 else 6;
      assert Tickers[k].symbol == s;
      ListedAt(k);
    }
  }

  /** From a listed selection, toggling only listed symbols keeps the selection listed. */
  lemma {:induction false} RunKeepsListed(start: AppState, actions: seq<Action>)
    requires AllListed(start.selectedTickers) && TogglesListed(actions)
    ensures AllListed(Run(start, actions).selectedTickers)
    decreases |actions|
  {
    if actions != [] {
      if actions[0].Toggle? {
        ToggleKeepsListed(start, actions[0].symbol);
      }
      assert TogglesListed(actions[1..]) by {
        forall k | 0 <= k < |actions[1..]| ensures actions[1..][k] == actions[k + 1] { }
      }
      RunKeepsListed(Apply(start, actions[0]), actions[1..]);
    }
  }

  /** Every selection the user can reach from the initial state is non-empty,
      duplicate-free and fetchable: the request for it succeeds whatever the draws. */
  lemma ReachableSelectionsFetchable(actions: seq<Action>, draws: seq<seq<real>>)
    requires TogglesListed(actions)
    requires var s := Run(InitialState, actions);
      MarketData.ValidDraws(draws, |s.selectedTickers|, MarketData.PointsCount(s.period, s.interval))
    ensures var s := Run(InitialState, actions);
      && s.selectedTickers != []
      && NoDuplicates(s.selectedTickers)
      && MarketData.Generate(s.selectedTickers, s.period, s.interval, draws).Ok?
  {
    var s := Run(InitialState, actions);
    InitialStateFacts();
    RunKeepsSelectionValid(InitialState, actions);
    RunKeepsListed(InitialState, actions);
    MarketData.GenerateFailsOnlyOnUnlisted(s.selectedTickers, s.period, s.interval, draws);
  }
}
