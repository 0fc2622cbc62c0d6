/**
 * The time-gated cache of daily snapshots. `StockDataCache` holds the four fields of
 * the source; `Refresh` and `GetDataSpec` describe on values what its two methods do,
 * and the lemmas after them state what a reader can rely on.
 */
module StockCache {
  import opened Wrappers
  import opened Frames
  import opened Krx
  import opened DailySnapshot

  /** `self.data`: market, then day, then that day's table. */
  type Snapshot = map<Market, map<Day, Frame>>

  /** `refresh_interval_seconds=86400`: one day. */
  const DefaultRefreshInterval: real := 86400.0

  /** `{"KOSPI": {}, "KOSDAQ": {}}`, the value `data` is reset to when a fetch starts. */
  const EmptyData: Snapshot := map[Kospi := map[], Kosdaq := map[]]

  /** The tables filled so far, and the error that stopped the fill, if any. */
  datatype Progress = Progress(data: Snapshot, failure: Option<Error>)

  /** The tables of one market filled so far, and the error that stopped the fill, if any. */
  datatype DayFill = DayFill(tables: map<Day, Frame>, failure: Option<Error>)

  /** One (day, market) fetch, the body of the loops of `_fetch_data`. */
  type Fetch = (Day, Market) -> Result<Frame, Error>

  function Fetcher(p: WfProvider): Fetch {
    (d, m) => FetchDay(p, d, m)
  }

  /** The inner loop: fetch `days` in order for market `m`, stopping at the first failure. */
  function FillDays(fetch: Fetch, m: Market, days: seq<Day>, tables: map<Day, Frame>): (r: DayFill)
    decreases |days|
  {
    if days == [] then DayFill(tables, None)
    else
      match fetch(days[0], m)
      case Failure(e) => DayFill(tables, Some(e))
      case Success(table) => FillDays(fetch, m, days[1..], tables[days[0] := table])
  }

  /** Every table of the fill was there before or was fetched for its own day. */
  lemma {:induction false} FillDaysSound(fetch: Fetch, m: Market, days: seq<Day>, tables: map<Day, Frame>)
    ensures var r := FillDays(fetch, m, days, tables);
            forall d :: d in r.tables ==>
              || (d in days && fetch(d, m) == Success(r.tables[d]))
              || (d in tables && r.tables[d] == tables[d])
    decreases |days|
  {
    if days != [] && fetch(days[0], m).Success? {
      assert days == [days[0]] + days[1..];
      FillDaysSound(fetch, m, days[1..], tables[days[0] := fetch(days[0], m).value]);
    }
  }

  /** A fill that did not stop holds the fetched table of every day of `days`, and nothing new besides. */
  lemma {:induction false} FillDaysComplete(fetch: Fetch, m: Market, days: seq<Day>, tables: map<Day, Frame>)
    requires FillDays(fetch, m, days, tables).failure.None?
    ensures var r := FillDays(fetch, m, days, tables);
            && r.tables.Keys == tables.Keys + Elems(days)
            && forall d :: d in days ==> d in r.tables && fetch(d, m) == Success(r.tables[d])
    decreases |days|
  {
    if days != [] {
      assert days == [days[0]] + days[1..];
      assert Elems(days) == {days[0]} + Elems(days[1..]);
      FillDaysComplete(fetch, m, days[1..], tables[days[0] := fetch(days[0], m).value]);
      FillDaysSound(fetch, m, days[1..], tables[days[0] := fetch(days[0], m).value]);
    }
  }

  /**
   * The fill of `m` over `days` stopped at day `k`: every earlier day was fetched, day `k`
   * raised `e`, and `after` holds the days of `before` and exactly the days before `k`.
   */
  ghost predicate StoppedAt(fetch: Fetch, m: Market, days: seq<Day>, before: map<Day, Frame>, after: map<Day, Frame>, e: Error) {
    exists k :: 0 <= k < |days| && fetch(days[k], m) == Failure(e)
      && (forall j :: 0 <= j < k ==> fetch(days[j], m).Success?)
      && after.Keys == before.Keys + Elems(days[..k])
  }

  /**
   * A fill that stopped reports the error of the first day of `days` that could not be
   * fetched, having stored every day before it and no other.
   */
  lemma {:induction false} FillDaysFailure(fetch: Fetch, m: Market, days: seq<Day>, tables: map<Day, Frame>)
    requires FillDays(fetch, m, days, tables).failure.Some?
    ensures var r := FillDays(fetch, m, days, tables);
            StoppedAt(fetch, m, days, tables, r.tables, r.failure.value)
    decreases |days|
  {
    var r := FillDays(fetch, m, days, tables);
    if fetch(days[0], m).Failure? {
      assert days[..0] == [];
      assert fetch(days[0], m) == Failure(r.failure.value);
    } else {
      var next := tables[days[0] := fetch(days[0], m).value];
      assert r == FillDays(fetch, m, days[1..], next);
      FillDaysFailure(fetch, m, days[1..], next);
      StoppedAtCons(fetch, m, days, tables, r.tables, r.failure.value);
    }
  }

  /** A fill whose first day was fetched stops where the fill of the remaining days stops. */
  lemma StoppedAtCons(fetch: Fetch, m: Market, days: seq<Day>, tables: map<Day, Frame>, after: map<Day, Frame>, e: Error)
    requires days != [] && fetch(days[0], m).Success?
    requires StoppedAt(fetch, m, days[1..], tables[days[0] := fetch(days[0], m).value], after, e)
    ensures StoppedAt(fetch, m, days, tables, after, e)
  {
    var next := tables[days[0] := fetch(days[0], m).value];
    var k' :| 0 <= k' < |days[1..]| && fetch(days[1..][k'], m) == Failure(e)
      && (forall j :: 0 <= j < k' ==> fetch(days[1..][j], m).Success?)
      && after.Keys == next.Keys + Elems(days[1..][..k']);
    ElemsPrefixCons(days, k');
    FetchedPrefixCons(fetch, m, days, k');
    assert fetch(days[k' + 1], m) == Failure(e);
  }

  /** The days before `k + 1` are the first day and the days of the tail before `k`. */
  lemma ElemsPrefixCons(days: seq<Day>, k: nat)
    requires k < |days| - 1
    ensures Elems(days[..k + 1]) == {days[0]} + Elems(days[1..][..k])
  {
    assert days[..k + 1] == [days[0]] + days[1..][..k];
  }

  /** The first day and the first `k` days of the tail fetched means the first `k + 1` days fetched. */
  lemma FetchedPrefixCons(fetch: Fetch, m: Market, days: seq<Day>, k: nat)
    requires k < |days| - 1 && fetch(days[0], m).Success?
    requires forall j :: 0 <= j < k ==> fetch(days[1..][j], m).Success?
    ensures forall j :: 0 <= j < k + 1 ==> fetch(days[j], m).Success?
  {
    forall j | 0 <= j < k + 1 ensures fetch(days[j], m).Success? {
      if j > 0 { assert days[j] == days[1..][j - 1]; }
    }
  }

  /** One step of the inner loop: the first day decides whether the fill stops or goes on. */
  lemma FillDaysStep(fetch: Fetch, m: Market, days: seq<Day>, tables: map<Day, Frame>)
    requires days != []
    ensures fetch(days[0], m).Failure? ==>
              FillDays(fetch, m, days, tables) == DayFill(tables, Some(fetch(days[0], m).error))
    ensures fetch(days[0], m).Success? ==>
              FillDays(fetch, m, days, tables) == FillDays(fetch, m, days[1..], tables[days[0] := fetch(days[0], m).value])
  {
  }

  /** The outer loop: every market of `ms` in order, stopping at the first failure. */
  function FillMarkets(fetch: Fetch, ms: seq<Market>, days: seq<Day>, data: Snapshot): (r: Progress)
    requires forall m :: m in ms ==> m in data
    ensures r.data.Keys == data.Keys
    ensures forall m :: m in data && m !in ms ==> r.data[m] == data[m]
    decreases |ms|
  {
    if ms == [] then Progress(data, None)
    else
      var first := FillDays(fetch, ms[0], days, data[ms[0]]);
      var next := data[ms[0] := first.tables];
      if first.failure.Some? then Progress(next, first.failure)
      else
        assert forall m :: m in ms[1..] ==> m in ms;
        FillMarkets(fetch, ms[1..], days, next)
  }

  /** The table the fill holds for `(m, d)` was either there before or fetched successfully for that day and market. */
  lemma {:induction false} FillMarketsEntry(fetch: Fetch, ms: seq<Market>, days: seq<Day>, data: Snapshot, m: Market, d: Day)
    requires forall m :: m in ms ==> m in data
    requires m in FillMarkets(fetch, ms, days, data).data && d in FillMarkets(fetch, ms, days, data).data[m]
    ensures var r := FillMarkets(fetch, ms, days, data);
            || (m in ms && d in days && fetch(d, m) == Success(r.data[m][d]))
            || (d in data[m] && r.data[m][d] == data[m][d])
    decreases |ms|
  {
    if ms != [] {
      var first := FillDays(fetch, ms[0], days, data[ms[0]]);
      var next := data[ms[0] := first.tables];
      var r := FillMarkets(fetch, ms, days, data);
      if first.failure.None? {
        assert forall m :: m in ms[1..] ==> m in ms;
        FillMarketsEntry(fetch, ms[1..], days, next, m, d);
        assert r == FillMarkets(fetch, ms[1..], days, next);
      } else {
        assert r.data == next;
      }
      if m == ms[0] {
        FillDaysSound(fetch, ms[0], days, data[ms[0]]);
      }
    }
  }

  /** Every table the fill holds was either there before or fetched successfully for its own day and market. */
  lemma FillMarketsSound(fetch: Fetch, ms: seq<Market>, days: seq<Day>, data: Snapshot)
    requires forall m :: m in ms ==> m in data
    ensures var r := FillMarkets(fetch, ms, days, data);
            forall m, d :: m in r.data && d in r.data[m] ==>
              || (m in ms && d in days && fetch(d, m) == Success(r.data[m][d]))
              || (d in data[m] && r.data[m][d] == data[m][d])
  {
    var r := FillMarkets(fetch, ms, days, data);
    forall m, d | m in r.data && d in r.data[m]
      ensures || (m in ms && d in days && fetch(d, m) == Success(r.data[m][d]))
              || (d in data[m] && r.data[m][d] == data[m][d])
    {
      FillMarketsEntry(fetch, ms, days, data, m, d);
    }
  }

  /** A fill that did not stop holds, for every market of `ms`, the fetched table of every day. */
  lemma {:induction false} FillMarketsComplete(fetch: Fetch, ms: seq<Market>, days: seq<Day>, data: Snapshot)
    requires forall m :: m in ms ==> m in data
    requires FillMarkets(fetch, ms, days, data).failure.None?
    ensures var r := FillMarkets(fetch, ms, days, data);
            forall m :: m in ms ==>
              && r.data[m].Keys == data[m].Keys + Elems(days)
              && forall d :: d in days ==> fetch(d, m) == Success(r.data[m][d])
    decreases |ms|
  {
    if ms != [] {
      assert ms == [ms[0]] + ms[1..];
      var first := FillDays(fetch, ms[0], days, data[ms[0]]);
      var next := data[ms[0] := first.tables];
      FillDaysComplete(fetch, ms[0], days, data[ms[0]]);
      assert forall m :: m in ms[1..] ==> m in ms;
      FillMarketsComplete(fetch, ms[1..], days, next);
    }
  }

  /** The four fields of the cache, as one value. */
  datatype CacheState = CacheState(
    data: Snapshot,
    workingDays: seq<Day>,
    lastUpdated: real,
    refreshInterval: real)

  /** A state after an operation, and whether the operation raised. */
  datatype Step = Step(state: CacheState, outcome: Outcome<Error>)

  /**
   * `_fetch_data`: reset `data`, take the day window, fill every (market, day) pair, and
   * stamp `last_updated` with the clock read after the fill. An exception leaves the
   * fields as far as the code got: `data` partly filled, `last_updated` unchanged.
   */
  function Refresh(s: CacheState, businessDays: Option<seq<Day>>, fetch: Fetch, clock: real): (r: Step)
    ensures r.state.data.Keys == {Kospi, Kosdaq} && r.state.refreshInterval == s.refreshInterval
    ensures r.outcome.Pass? ==> r.state.lastUpdated == clock
    ensures r.outcome.Fail? ==> r.state.lastUpdated == s.lastUpdated
  {
    assert EmptyData.Keys == {Kospi, Kosdaq};
    match businessDays
    case None => Step(s.(data := EmptyData), Fail(ProviderError))
    case Some(all) =>
      var days := Window(all);
      var filled := FillMarkets(fetch, Markets, days, EmptyData);
      match filled.failure
      case None => Step(CacheState(filled.data, days, clock, s.refreshInterval), Pass)
      case Some(e) => Step(CacheState(filled.data, days, s.lastUpdated, s.refreshInterval), Fail(e))
  }

  /** `(current_time - self.last_updated) > self.refresh_interval` */
  predicate IsStale(s: CacheState, now: real)
    ensures IsStale(s, now) && s.refreshInterval >= 0.0 ==> now > s.lastUpdated
  {
    now - s.lastUpdated > s.refreshInterval
  }

  /** `get_data`, with `now` the clock read when it starts and `clock` the one read at the end of a fetch. */
  function GetDataSpec(s: CacheState, businessDays: Option<seq<Day>>, fetch: Fetch, now: real, clock: real): (r: Step)
    ensures r.state.refreshInterval == s.refreshInterval
    ensures !IsStale(s, now) ==> r == Step(s, Pass)
    ensures IsStale(s, now) ==> r == Refresh(s, businessDays, fetch, clock)
    ensures r.state.lastUpdated == s.lastUpdated || r.state.lastUpdated == clock
    ensures r.outcome.Fail? ==> IsStale(s, now) && r.state.lastUpdated == s.lastUpdated
  {
    if IsStale(s, now) then Refresh(s, businessDays, fetch, clock) else Step(s, Pass)
  }

  /**
   * After any refresh `data` has exactly the two markets and the interval is unchanged;
   * the working days are the window of the business days, and only a refresh that
   * raised nothing moves the stamp, to the clock read after the fill.
   */
  lemma RefreshShape(s: CacheState, businessDays: Option<seq<Day>>, fetch: Fetch, clock: real)
    ensures var step := Refresh(s, businessDays, fetch, clock);
            var st := step.state;
            && st.data.Keys == {Kospi, Kosdaq}
            && st.refreshInterval == s.refreshInterval
            && (businessDays.None? ==> step.outcome == Fail(ProviderError) && st == s.(data := EmptyData))
            && (businessDays.Some? ==> st.workingDays == Window(businessDays.value))
            && (step.outcome.Pass? ==> st.lastUpdated == clock)
            && (step.outcome.Fail? ==> st.lastUpdated == s.lastUpdated)
  {
    assert EmptyData.Keys == {Kospi, Kosdaq};
  }

  /** Whether or not it raised, a refresh holds only tables fetched for their own working day and market. */
  lemma RefreshSound(s: CacheState, businessDays: Option<seq<Day>>, fetch: Fetch, clock: real)
    ensures var st := Refresh(s, businessDays, fetch, clock).state;
            forall m, d :: m in st.data && d in st.data[m] ==>
              d in st.workingDays && fetch(d, m) == Success(st.data[m][d])
  {
    if all :| businessDays == Some(all) {
      var days := Window(all);
      var filled := FillMarkets(fetch, Markets, days, EmptyData);
      assert Refresh(s, businessDays, fetch, clock).state == CacheState(filled.data, days, Refresh(s, businessDays, fetch, clock).state.lastUpdated, s.refreshInterval);
      forall m, d | m in filled.data && d in filled.data[m]
        ensures d in days && fetch(d, m) == Success(filled.data[m][d])
      {
        FillMarketsEntry(fetch, Markets, days, EmptyData, m, d);
        assert EmptyData[m] == map[];
      }
    }
  }

  /** A refresh that raised nothing holds, for both markets, the fetched table of every working day. */
  lemma RefreshComplete(s: CacheState, businessDays: Option<seq<Day>>, fetch: Fetch, clock: real)
    requires Refresh(s, businessDays, fetch, clock).outcome.Pass?
    ensures var st := Refresh(s, businessDays, fetch, clock).state;
            forall m :: m in st.data ==>
              && st.data[m].Keys == Elems(st.workingDays)
              && forall d :: d in st.workingDays ==> fetch(d, m) == Success(st.data[m][d])
  {
    var days := Window(businessDays.value);
    var filled := FillMarkets(fetch, Markets, days, EmptyData);
    FillMarketsComplete(fetch, Markets, days, EmptyData);
    assert Refresh(s, businessDays, fetch, clock).state.data == filled.data;
    forall m | m in filled.data
      ensures m in Markets && EmptyData[m] == map[]
    {
      assert m == Kospi || m == Kosdaq;
    }
  }

  /** The outer loop over the two markets, unrolled: KOSPI first, then KOSDAQ unless KOSPI stopped. */
  lemma FillBothMarkets(fetch: Fetch, days: seq<Day>)
    ensures var first := FillDays(fetch, Kospi, days, map[]);
            var second := FillDays(fetch, Kosdaq, days, map[]);
            FillMarkets(fetch, Markets, days, EmptyData) ==
              if first.failure.Some? then Progress(EmptyData[Kospi := first.tables], first.failure)
              else Progress(EmptyData[Kospi := first.tables][Kosdaq := second.tables], second.failure)
  {
    var first := FillDays(fetch, Kospi, days, map[]);
    var next := EmptyData[Kospi := first.tables];
    assert Markets[0] == Kospi && Markets[1..] == [Kosdaq] && [Kosdaq][1..] == [];
    assert EmptyData[Kospi] == map[] && next[Kosdaq] == map[];
    if first.failure.None? {
      assert FillMarkets(fetch, Markets, days, EmptyData) == FillMarkets(fetch, [Kosdaq], days, next);
    }
  }

  /**
   * `data` is a fill of the two markets that stopped with `e`: KOSPI stopped at its first
   * failing day with KOSDAQ still empty, or KOSPI was filled completely and KOSDAQ stopped
   * at its first failing day.
   */
  ghost predicate StoppedInOneMarket(fetch: Fetch, days: seq<Day>, data: Snapshot, e: Error) {
    && Kospi in data && Kosdaq in data
    && (|| (StoppedAt(fetch, Kospi, days, map[], data[Kospi], e) && data[Kosdaq] == map[])
        || (&& data[Kospi].Keys == Elems(days)
            && (forall d :: d in days ==> fetch(d, Kospi) == Success(data[Kospi][d]))
            && StoppedAt(fetch, Kosdaq, days, map[], data[Kosdaq], e)))
  }

  /** An outer loop that stopped did so inside one market, after completing the markets before it. */
  lemma FillBothMarketsFailure(fetch: Fetch, days: seq<Day>)
    requires FillMarkets(fetch, Markets, days, EmptyData).failure.Some?
    ensures var filled := FillMarkets(fetch, Markets, days, EmptyData);
            StoppedInOneMarket(fetch, days, filled.data, filled.failure.value)
  {
    FillBothMarkets(fetch, days);
    var first := FillDays(fetch, Kospi, days, map[]);
    if first.failure.Some? {
      FillDaysFailure(fetch, Kospi, days, map[]);
    } else {
      FillDaysComplete(fetch, Kospi, days, map[]);
      FillDaysFailure(fetch, Kosdaq, days, map[]);
    }
  }

  /**
   * A refresh that raised either had its business-day lookup raise, or stopped inside one market
   * after storing exactly the days before the first one whose fetch raised.
   */
  lemma RefreshFailure(s: CacheState, businessDays: Option<seq<Day>>, fetch: Fetch, clock: real)
    requires Refresh(s, businessDays, fetch, clock).outcome.Fail?
    ensures var step := Refresh(s, businessDays, fetch, clock);
            var st, e := step.state, step.outcome.error;
            || (businessDays.None? && e == ProviderError && st.data == EmptyData)
            || (businessDays.Some? && StoppedInOneMarket(fetch, st.workingDays, st.data, e))
  {
    if all :| businessDays == Some(all) {
      FillBothMarketsFailure(fetch, Window(all));
    }
  }

  /** The old tables never survive a refresh, whether it succeeds or fails. */
  lemma RefreshReplacesData(s1: CacheState, s2: CacheState, businessDays: Option<seq<Day>>, fetch: Fetch, clock: real)
    ensures Refresh(s1, businessDays, fetch, clock).state.data == Refresh(s2, businessDays, fetch, clock).state.data
    ensures Refresh(s1, businessDays, fetch, clock).outcome == Refresh(s2, businessDays, fetch, clock).outcome
  {
  }

  /**
   * After a successful refresh stamped at `clock`, every read until the interval has
   * passed returns that state unchanged and never consults the provider.
   */
  lemma ReadWithinInterval(s: CacheState, businessDays: Option<seq<Day>>, fetch: Fetch, clock: real,
                           businessDays': Option<seq<Day>>, fetch': Fetch, now: real, clock': real)
    requires Refresh(s, businessDays, fetch, clock).outcome.Pass?
    requires now - clock <= s.refreshInterval
    ensures var st := Refresh(s, businessDays, fetch, clock).state;
            GetDataSpec(st, businessDays', fetch', now, clock') == Step(st, Pass)
  {
    RefreshShape(s, businessDays, fetch, clock);
  }

  /** A failed refresh keeps the old stamp, so every later read tries again. */
  lemma FailedRefreshStaysStale(s: CacheState, businessDays: Option<seq<Day>>, fetch: Fetch, now: real, clock: real, later: real)
    requires IsStale(s, now) && now <= later
    requires GetDataSpec(s, businessDays, fetch, now, clock).outcome.Fail?
    ensures IsStale(GetDataSpec(s, businessDays, fetch, now, clock).state, later)
  {
    RefreshShape(s, businessDays, fetch, clock);
  }

  class StockDataCache {
    var data: Snapshot
    var workingDays: seq<Day>
    var lastUpdated: real
    var refreshInterval: real

    function State(): CacheState
      reads this
    {
      CacheState(data, workingDays, lastUpdated, refreshInterval)
    }

    /** Lines 22-25; the first fetch of `__init__` is `Create`. */
    constructor (refreshIntervalSeconds: real := DefaultRefreshInterval)
      ensures State() == CacheState(map[], [], 0.0, refreshIntervalSeconds)
    {
      data := map[];
      workingDays := [];
      lastUpdated := 0.0;
      refreshInterval := refreshIntervalSeconds;
    }

    /** `_fetch_data`: the outer loop over the markets; `FetchMarket` is its inner loop. */
    method FetchData(p: WfProvider, clock: real) returns (outcome: Outcome<Error>)
      modifies this
      ensures Step(State(), outcome) == Refresh(old(State()), p.businessDays, Fetcher(p), clock)
    {
      data := EmptyData;
      if p.businessDays.None? {
        return Fail(ProviderError);
      }
      workingDays := Window(p.businessDays.value);
      var mi := 0;
      while mi < |Markets|
        invariant 0 <= mi <= |Markets|
        invariant workingDays == Window(p.businessDays.value)
        invariant lastUpdated == old(lastUpdated) && refreshInterval == old(refreshInterval)
        invariant data.Keys == EmptyData.Keys
        invariant FillMarkets(Fetcher(p), Markets, workingDays, EmptyData) == FillMarkets(Fetcher(p), Markets[mi..], workingDays, data)
      {
        var failure := FetchMarket(Fetcher(p), Markets[mi]);
        if failure.Some? {
          return Fail(failure.value);
        }
        assert Markets[mi..][1..] == Markets[mi + 1..];
        mi := mi + 1;
      }
      lastUpdated := clock;
      outcome := Pass;
    }

    /**
     * The inner loop of `_fetch_data`: store each working day's table of `market` in
     * order, stopping at the first one that raises.
     */
    method FetchMarket(fetch: Fetch, market: Market) returns (failure: Option<Error>)
      requires market in data
      modifies this
      ensures var fill := FillDays(fetch, market, workingDays, old(data)[market]);
              && data == old(data)[market := fill.tables]
              && failure == fill.failure
      ensures workingDays == old(workingDays) && lastUpdated == old(lastUpdated) && refreshInterval == old(refreshInterval)
    {
      ghost var start := data;
      var di := 0;
      while di < |workingDays|
        invariant 0 <= di <= |workingDays|
        invariant workingDays == old(workingDays) && lastUpdated == old(lastUpdated) && refreshInterval == old(refreshInterval)
        invariant market in data && data == start[market := data[market]]
        invariant FillDays(fetch, market, workingDays, start[market]) == FillDays(fetch, market, workingDays[di..], data[market])
      {
        var day := workingDays[di];
        var table := fetch(day, market);
        FillDaysStep(fetch, market, workingDays[di..], data[market]);
        if table.Failure? {
          return Some(table.error);
        }
        assert workingDays[di..][1..] == workingDays[di + 1..];
        data := data[market := data[market][day := table.value]];
        di := di + 1;
      }
      failure := None;
    }

    /**
     * `get_data`: refresh when strictly more than the interval has passed since the last
     * stamp, then return the current data and working days; an exception of the fetch
     * propagates instead.
     */
    method GetData(p: WfProvider, now: real, clock: real) returns (r: Result<(Snapshot, seq<Day>), Error>)
      modifies this
      ensures Step(State(), if r.Success? then Pass else Fail(r.error)) == GetDataSpec(old(State()), p.businessDays, Fetcher(p), now, clock)
      ensures r.Success? ==> r.value == (data, workingDays)
      ensures !IsStale(old(State()), now) ==> State() == old(State()) && r.Success?
    {
      if now - lastUpdated > refreshInterval {
        var outcome := FetchData(p, clock);
        if outcome.Fail? {
          return Failure(outcome.error);
        }
      }
      return Success((data, workingDays));
    }
  }

  /**
   * `StockDataCache()` on first use: the fields of a new cache, then its first fetch.
   * When that fetch raises, the source's caller never obtains the object.
   */
  method Create(p: WfProvider, clock: real, refreshIntervalSeconds: real := DefaultRefreshInterval) returns (c: StockDataCache, outcome: Outcome<Error>)
    ensures fresh(c)
    ensures Step(c.State(), outcome) == Refresh(CacheState(map[], [], 0.0, refreshIntervalSeconds), p.businessDays, Fetcher(p), clock)
  {
    c := new StockDataCache(refreshIntervalSeconds);
    outcome := c.FetchData(p, clock);
  }
}
