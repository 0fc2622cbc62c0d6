/**
 * The body of the cache's fetch: the window of recent trading days, and for one
 * (market, day) pair the pipeline that turns the provider's three frames into the
 * stored table (names, turnover, inner joins, display columns). The fill of every
 * pair of the window, stopping at the first failure, is `FillMarkets`.
 */
module DailySnapshot {
  import opened Wrappers
  import opened Frames
  import opened Krx
  import opened Turnover

  const WindowSize: nat := 4
  const Markets: seq<Market> := [Kospi, Kosdaq]
  const DisplayCols: seq<ColName> := [NameCol, VolumeCol, TurnoverCol, ChangeRateCol, CloseCol, HighCol, LowCol]

  function Reverse(s: seq<Day>): (r: seq<Day>)
    ensures |r| == |s|
    ensures forall i :: 0 <= i < |s| ==> r[i] == s[|s| - 1 - i]
  {
    if s == [] then [] else Reverse(s[1..]) + [s[0]]
  }

  /** `all_days_in_range[-4:][::-1]`: the last four business days, newest first. */
  function Window(all: seq<Day>): (w: seq<Day>)
    ensures |w| == Min(WindowSize, |all|)
    ensures forall i :: 0 <= i < |w| ==> w[i] == all[|all| - 1 - i]
    ensures forall d :: d in w ==> d in all
  {
    Reverse(all[|all| - Min(WindowSize, |all|)..])
  }

  /** Reversing the window gives back the suffix of the business-day list. */
  lemma {:induction false} WindowIsReversedSuffix(all: seq<Day>)
    ensures Reverse(Window(all)) == all[|all| - |Window(all)|..]
  {
    var w := Window(all);
    var suffix := all[|all| - |w|..];
    assert |Reverse(w)| == |suffix|;
    forall i | 0 <= i < |suffix| ensures Reverse(w)[i] == suffix[i] {
      assert Reverse(w)[i] == w[|w| - 1 - i];
    }
  }

  /** An ascending business-day list gives a window that is descending: newest first. */
  lemma WindowNewestFirst(all: seq<Day>, before: (Day, Day) -> bool)
    requires forall i, j :: 0 <= i < j < |all| ==> before(all[i], all[j])
    ensures forall i, j :: 0 <= i < j < |Window(all)| ==> before(Window(all)[j], Window(all)[i])
  {
    var w := Window(all);
    forall i, j | 0 <= i < j < |w| ensures before(w[j], w[i]) {
      assert w[j] == all[|all| - 1 - j] && w[i] == all[|all| - 1 - i];
    }
  }

  /** `not ohlcv_df.empty and '등락률' in ohlcv_df.columns` */
  predicate HasChangeRate(ohlcv: Frame)
    ensures HasChangeRate(ohlcv) <==> ohlcv.index != [] && ChangeRateCol in ohlcv.columns
  {
    !IsEmpty(ohlcv) && ChangeRateCol in ohlcv.columns
  }

  /**
   * Lines 55-57: inner join of the turnover frame with the fundamentals, then with the
   * change-rate column of the OHLCV frame when that frame is non-empty and has it.
   */
  function Combine(turnover: Frame, fund: Frame, ohlcv: Frame): (res: Result<Frame, Error>)
    ensures !HasChangeRate(ohlcv) ==> res == Join(turnover, fund)
    ensures res.Success? && HasChangeRate(ohlcv) ==>
              res.value.rows.Keys == turnover.rows.Keys * fund.rows.Keys * ohlcv.rows.Keys
    ensures res.Success? && !HasChangeRate(ohlcv) ==>
              res.value.rows.Keys == turnover.rows.Keys * fund.rows.Keys
    ensures res.Success? ==> IsSubsequence(res.value.index, turnover.index)
    ensures res.Success? && WellFormed(turnover) && WellFormed(fund) && WellFormed(ohlcv) ==> WellFormed(res.value)
    ensures res.Success? && HasChangeRate(ohlcv) ==> res.value.columns == turnover.columns + fund.columns + [ChangeRateCol]
    ensures res.Success? && WellFormed(turnover) && WellFormed(fund) ==>
              forall t, c :: t in res.value.rows && c in turnover.columns ==>
                c in res.value.rows[t] && c in turnover.rows[t] && res.value.rows[t][c] == turnover.rows[t][c]
    ensures res.Success? && HasChangeRate(ohlcv) && WellFormed(ohlcv) ==>
              forall t :: t in res.value.rows ==>
                ChangeRateCol in res.value.rows[t] && res.value.rows[t][ChangeRateCol] == ohlcv.rows[t][ChangeRateCol]
  {
    var combined :- Join(turnover, fund);
    if HasChangeRate(ohlcv) then
      var res := Join(combined, Project(ohlcv, [ChangeRateCol]));
      assert res.Success? ==> IsSubsequence(res.value.index, turnover.index) by {
        if res.Success? { SubsequenceTransitive(res.value.index, combined.index, turnover.index); }
      }
      assert Distinct([ChangeRateCol]);
      res
    else
      Success(combined)
  }

  /** `combined_df[existing_cols]`: the display columns the combined table has. */
  function SelectDisplay(combined: Frame): (g: Frame)
    ensures g.columns == ExistingColumns(DisplayCols, combined)
    ensures g.index == combined.index && g.rows.Keys == combined.rows.Keys
    ensures forall t, c :: t in g.rows && c in g.columns && c in combined.rows[t] ==>
              c in g.rows[t] && g.rows[t][c] == combined.rows[t][c]
    ensures WellFormed(combined) ==> WellFormed(g)
  {
    assert Distinct(DisplayCols);
    Project(combined, ExistingColumns(DisplayCols, combined))
  }

  /** `turnover_df['종목명'] = turnover_df.index.map(get_market_ticker_name)` */
  function WithNames(cap: Frame, tickerName: Ticker -> string): (g: Frame)
    ensures g.index == cap.index && g.rows.Keys == cap.rows.Keys
    ensures forall t :: t in g.rows ==> NameCol in g.rows[t] && g.rows[t][NameCol] == Text(tickerName(t))
    ensures forall t, c :: t in g.rows && c in cap.rows[t] && c != NameCol ==>
              c in g.rows[t] && g.rows[t][c] == cap.rows[t][c]
    ensures WellFormed(cap) ==> WellFormed(g)
  {
    var names := map t | t in cap.rows :: Text(tickerName(t));
    assert WellFormed(cap) ==> WellFormed(WithColumn(cap, NameCol, names)) by {
      if WellFormed(cap) { WithColumnWellFormed(cap, NameCol, names); }
    }
    WithColumn(cap, NameCol, names)
  }

  /**
   * Lines 48-62 for one market and one day: the stored table, or the exception that
   * the provider, the turnover computation or a join raises.
   */
  function FetchDay(p: WfProvider, day: Day, market: Market): (res: Result<Frame, Error>)
    ensures res.Success? ==> WellFormed(res.value)
    ensures p.marketCap(day, market).None? ==> res == Failure(ProviderError)
  {
    var cap :- Call(p.marketCap(day, market));
    var turnover :- WithTurnover(WithNames(cap, p.tickerName));
    var fund :- Call(p.fundamental(day, market));
    var ohlcv :- Call(p.ohlcv(day, market));
    var combined :- Combine(turnover, fund, ohlcv);
    Success(SelectDisplay(combined))
  }

  /** The stages a successful fetch of one day went through. */
  lemma FetchDayUnfold(p: WfProvider, day: Day, market: Market)
    requires FetchDay(p, day, market).Success?
    ensures p.marketCap(day, market).Some? && p.fundamental(day, market).Some? && p.ohlcv(day, market).Some?
    ensures var cap := p.marketCap(day, market).value;
            && WithTurnover(WithNames(cap, p.tickerName)).Success?
            && var turnover := WithTurnover(WithNames(cap, p.tickerName)).value;
               && Combine(turnover, p.fundamental(day, market).value, p.ohlcv(day, market).value).Success?
               && FetchDay(p, day, market).value
                  == SelectDisplay(Combine(turnover, p.fundamental(day, market).value, p.ohlcv(day, market).value).value)
  {
  }

  /** A stored table holds the instruments present in every frame that was joined, in market-cap order. */
  lemma FetchDayIds(p: WfProvider, day: Day, market: Market)
    requires FetchDay(p, day, market).Success?
    ensures p.marketCap(day, market).Some? && p.fundamental(day, market).Some? && p.ohlcv(day, market).Some?
    ensures var cap, fund, ohlcv := p.marketCap(day, market).value, p.fundamental(day, market).value, p.ohlcv(day, market).value;
            var table := FetchDay(p, day, market).value;
            && (HasChangeRate(ohlcv) ==> table.rows.Keys == cap.rows.Keys * fund.rows.Keys * ohlcv.rows.Keys)
            && (!HasChangeRate(ohlcv) ==> table.rows.Keys == cap.rows.Keys * fund.rows.Keys)
            && IsSubsequence(table.index, cap.index)
  {
    FetchDayUnfold(p, day, market);
    var cap := p.marketCap(day, market).value;
    var turnover := WithTurnover(WithNames(cap, p.tickerName)).value;
    var combined := Combine(turnover, p.fundamental(day, market).value, p.ohlcv(day, market).value).value;
    assert turnover.index == cap.index;
    assert IsSubsequence(combined.index, turnover.index);
  }

  /** A stored table shows display columns only, in display order, and always the name and the turnover. */
  lemma FetchDayColumns(p: WfProvider, day: Day, market: Market)
    requires FetchDay(p, day, market).Success?
    ensures var table := FetchDay(p, day, market).value;
            && IsSubsequence(table.columns, DisplayCols)
            && NameCol in table.columns && TurnoverCol in table.columns
  {
    FetchDayUnfold(p, day, market);
    var cap := p.marketCap(day, market).value;
    var named := WithNames(cap, p.tickerName);
    var turnover := WithTurnover(named).value;
    assert NameCol in turnover.columns && TurnoverCol in turnover.columns;
  }

  /** The volume column of the market-cap frame reaches the stored table. */
  lemma FetchDayKeepsVolume(p: WfProvider, day: Day, market: Market)
    requires FetchDay(p, day, market).Success?
    ensures p.marketCap(day, market).Some?
    ensures VolumeCol in p.marketCap(day, market).value.columns ==> VolumeCol in FetchDay(p, day, market).value.columns
  {
    FetchDayUnfold(p, day, market);
    var cap := p.marketCap(day, market).value;
    var named := WithNames(cap, p.tickerName);
    assert Elems(named.columns) == Elems(cap.columns) + {NameCol};
  }

  /** The change rate of a non-empty OHLCV frame that has one reaches the stored table. */
  lemma FetchDayKeepsChangeRate(p: WfProvider, day: Day, market: Market)
    requires FetchDay(p, day, market).Success?
    ensures p.ohlcv(day, market).Some?
    ensures HasChangeRate(p.ohlcv(day, market).value) ==> ChangeRateCol in FetchDay(p, day, market).value.columns
  {
    FetchDayUnfold(p, day, market);
  }

  /**
   * Every row of a stored table carries the looked-up name, the guarded turnover of its
   * market-cap row, that row's volume, and the OHLCV change rate when it was joined.
   */
  lemma FetchDayCells(p: WfProvider, day: Day, market: Market, t: Ticker)
    requires FetchDay(p, day, market).Success?
    requires t in FetchDay(p, day, market).value.rows
    ensures p.marketCap(day, market).Some? && p.ohlcv(day, market).Some?
    ensures var cap, ohlcv := p.marketCap(day, market).value, p.ohlcv(day, market).value;
            var row := FetchDay(p, day, market).value.rows[t];
            && t in cap.rows
            && GuardedTurnover(cap.rows[t]).Success?
            && NameCol in row && row[NameCol] == Text(p.tickerName(t))
            && TurnoverCol in row && row[TurnoverCol] == Num(GuardedTurnover(cap.rows[t]).value)
            && (VolumeCol in cap.columns ==> VolumeCol in row && row[VolumeCol] == cap.rows[t][VolumeCol])
            && (HasChangeRate(ohlcv) ==> t in ohlcv.rows && ChangeRateCol in row && row[ChangeRateCol] == ohlcv.rows[t][ChangeRateCol])
  {
    FetchDayUnfold(p, day, market);
    FetchDayKeepsVolume(p, day, market);
    FetchDayKeepsChangeRate(p, day, market);
    FetchDayIds(p, day, market);
    var cap := p.marketCap(day, market).value;
    var named := WithNames(cap, p.tickerName);
    var turnover := WithTurnover(named).value;
    var combined := Combine(turnover, p.fundamental(day, market).value, p.ohlcv(day, market).value).value;
    var table := FetchDay(p, day, market).value;
    assert named.rows[t] == cap.rows[t][NameCol := Text(p.tickerName(t))];
    GuardedTurnoverIgnores(cap.rows[t], NameCol, Text(p.tickerName(t)));
    assert table.rows[t][NameCol] == combined.rows[t][NameCol] == turnover.rows[t][NameCol] == named.rows[t][NameCol];
    assert table.rows[t][TurnoverCol] == combined.rows[t][TurnoverCol] == turnover.rows[t][TurnoverCol];
    if VolumeCol in cap.columns {
      assert table.rows[t][VolumeCol] == combined.rows[t][VolumeCol] == turnover.rows[t][VolumeCol]
          == named.rows[t][VolumeCol] == cap.rows[t][VolumeCol];
    }
  }
}
