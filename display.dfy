/**
 * The page handler's projection of the cache: for each working day of one market, the
 * formatted date, the columns it shows, and the twenty rows with the largest volume.
 * The request parsing and the HTML rendering around it are not part of this model.
 */
module Display {
  import opened Wrappers
  import opened Frames
  import opened Krx
  import opened StockCache

  /** The columns the page shows when the table has them, in this order. */
  const ShowCols: seq<ColName> := [NameCol, VolumeCol, TurnoverCol, ChangeRateCol, CloseCol]
  /** `.head(20)` */
  const TopRows: nat := 20

  /** Python's `s[i:j]` for `0 <= i <= j`: bounds past the end are cut back to it. */
  function PySlice(s: string, i: nat, j: nat): (r: string)
    requires i <= j
    ensures |r| == Min(j, |s|) - Min(i, |s|)
    ensures j <= |s| ==> r == s[i..j]
  {
    s[Min(i, |s|)..Min(j, |s|)]
  }

  /** `f"{day[0:4]}-{day[4:6]}-{day[6:8]}"`: `20240105` becomes `2024-01-05`. */
  function FormatDate(day: Day): (r: string)
    ensures |day| >= 8 ==> |r| == 10 && r[4] == '-' && r[7] == '-'
    ensures |day| >= 8 ==> r[..4] == day[..4] && r[5..7] == day[4..6] && r[8..] == day[6..8]
    ensures |r| == Min(8, |day|) + 2
  {
    PySlice(day, 0, 4) + "-" + PySlice(day, 4, 6) + "-" + PySlice(day, 6, 8)
  }

  /** The `%Y%m%d` text back from a formatted date: the two dashes taken out. */
  function Undash(r: string): string
    requires |r| == 10
  {
    r[..4] + r[5..7] + r[8..]
  }

  /** Formatting an eight-character day loses nothing: removing the dashes gives it back. */
  lemma FormatDateRoundTrip(day: Day)
    requires |day| == 8
    ensures Undash(FormatDate(day)) == day
  {
    var r := FormatDate(day);
    assert day == day[..4] + day[4..6] + day[6..8];
  }

  /** Two different eight-character days are never shown under the same date. */
  lemma FormatDateInjective(a: Day, b: Day)
    requires |a| == 8 && |b| == 8
    requires FormatDate(a) == FormatDate(b)
    ensures a == b
  {
    FormatDateRoundTrip(a);
    FormatDateRoundTrip(b);
  }

  /** One entry of `daily_data`: the date, the shown columns, and the records or `None`. */
  datatype DayInfo = DayInfo(date: string, headers: seq<ColName>, data: Option<seq<Row>>)

  /** `sort_values(by='거래량')` can order the rows: the column exists and every cell of it is a number. */
  predicate VolumesSortable(f: Frame) {
    VolumeCol in f.columns && forall t :: t in f.rows ==> HasNum(f.rows[t], VolumeCol)
  }

  /** The volume of a row, the key the rows are sorted by. */
  function Volume(f: Frame, t: Ticker): real {
    NumAt(f, t, VolumeCol)
  }

  /** The rows shown: the index sorted by volume, largest first, cut to twenty. */
  function TopTickers(f: Frame): (ts: seq<Ticker>)
    ensures |ts| == Min(TopRows, |f.index|)
    ensures forall i :: 0 <= i < |ts| ==> ts[i] in f.index
  {
    var g := SortDesc(f, VolumeCol);
    var ts := g.index[..Min(TopRows, |f.index|)];
    assert forall i :: 0 <= i < |ts| ==> ts[i] == g.index[i] && g.index[i] in multiset(f.index);
    ts
  }

  /** `existing_columns_to_show`: the shown columns the table has, in display order. */
  function Headers(f: Frame): (h: seq<ColName>)
    ensures forall c :: c in h <==> c in ShowCols && c in f.columns
    ensures Distinct(h) && |h| <= |ShowCols|
  {
    assert Distinct(ShowCols);
    ExistingColumns(ShowCols, f)
  }

  /** `df_sorted[existing_columns_to_show].head(20).to_dict('records')` */
  function ShownRecords(f: Frame): (recs: seq<Row>)
    ensures |recs| == Min(TopRows, |f.index|)
  {
    Records(Head(Project(SortDesc(f, VolumeCol), Headers(f)), TopRows))
  }

  /**
   * Lines 108-124 for one day: no table or an empty one gives no records and no headers;
   * otherwise the table sorted by volume, the display columns it has, and its first
   * twenty rows as records. A table whose volume cannot be sorted raises.
   */
  function DayView(day: Day, df: Option<Frame>): (r: Result<DayInfo, Error>)
    ensures df.None? || IsEmpty(df.value) ==> r == Success(DayInfo(FormatDate(day), [], None))
    ensures r.Failure? <==> df.Some? && !IsEmpty(df.value) && !VolumesSortable(df.value)
    ensures r.Failure? ==> r.error == if VolumeCol in df.value.columns then TypeError(VolumeCol) else KeyError(VolumeCol)
    ensures r.Success? ==> r.value.date == FormatDate(day)
    ensures r.Success? && df.Some? && !IsEmpty(df.value) ==>
              && r.value.data.Some?
              && |r.value.data.value| == Min(TopRows, |df.value.index|)
              && IsSubsequence(r.value.headers, ShowCols)
              && forall c :: c in r.value.headers <==> c in ShowCols && c in df.value.columns
  {
    var date := FormatDate(day);
    match df
    case None => Success(DayInfo(date, [], None))
    case Some(f) =>
      if IsEmpty(f) then Success(DayInfo(date, [], None))
      else if VolumeCol !in f.columns then Failure(KeyError(VolumeCol))
      else if !VolumesSortable(f) then Failure(TypeError(VolumeCol))
      else
        Success(DayInfo(date, Headers(f), Some(ShownRecords(f))))
  }

  /** The shown instruments are at most twenty distinct rows of the table. */
  lemma TopTickersDistinct(f: Frame)
    requires WellFormed(f)
    ensures var ts := TopTickers(f);
            && |ts| == Min(TopRows, |f.index|)
            && Distinct(ts)
            && forall i :: 0 <= i < |ts| ==> ts[i] in f.rows
  {
    var s := SortDesc(f, VolumeCol).index;
    PermutationDistinct(f.index, s);
    SortedIndexInRows(f);
    var ts := TopTickers(f);
    forall i, j | 0 <= i < j < |ts| ensures ts[i] != ts[j] {
      assert ts[i] == s[i] && ts[j] == s[j];
    }
  }

  /** The shown instruments are ordered by volume, largest first. */
  lemma TopTickersSorted(f: Frame)
    ensures var ts := TopTickers(f);
            forall i, j :: 0 <= i < j < |ts| ==> Volume(f, ts[i]) >= Volume(f, ts[j])
  {
    var s := SortDesc(f, VolumeCol).index;
    var ts := TopTickers(f);
    forall i, j | 0 <= i < j < |ts| ensures Volume(f, ts[i]) >= Volume(f, ts[j]) {
      assert ts[i] == s[i] && ts[j] == s[j];
    }
  }

  /** No instrument of the table that is left out has a larger volume than any shown one. */
  lemma TopTickersAreTop(f: Frame)
    ensures var ts := TopTickers(f);
            forall t, i :: t in f.index && t !in ts && 0 <= i < |ts| ==> Volume(f, ts[i]) >= Volume(f, t)
  {
    var s := SortDesc(f, VolumeCol).index;
    var k := Min(TopRows, |f.index|);
    var ts := TopTickers(f);
    assert forall j :: 0 <= j < k ==> s[j] == ts[j];
    forall t, i | t in f.index && t !in ts && 0 <= i < |ts| ensures Volume(f, ts[i]) >= Volume(f, t) {
      assert t in multiset(f.index);
      var j :| 0 <= j < |s| && s[j] == t;
      assert ts[i] == s[i];
    }
  }

  /** Every position of the sorted index names a row of the table. */
  lemma SortedIndexInRows(f: Frame)
    requires WellFormed(f)
    ensures forall i :: 0 <= i < |SortDesc(f, VolumeCol).index| ==> SortDesc(f, VolumeCol).index[i] in f.rows
  {
    var s := SortDesc(f, VolumeCol).index;
    forall i | 0 <= i < |s| ensures s[i] in f.rows {
      assert s[i] in multiset(s);
    }
  }

  /** The shown record at position `i` is the shown columns of the `i`-th top instrument, nothing more. */
  lemma ShownRecordAt(f: Frame, i: nat)
    requires WellFormed(f) && i < |TopTickers(f)|
    ensures var recs, t := ShownRecords(f), TopTickers(f)[i];
            && i < |recs| && t in f.rows
            && recs[i].Keys == Elems(Headers(f))
            && forall c :: c in Headers(f) ==> recs[i][c] == f.rows[t][c]
  {
    var sorted := SortDesc(f, VolumeCol);
    var t := TopTickers(f)[i];
    assert t in f.rows by {
      SortedIndexInRows(f);
      assert t == sorted.index[i];
    }
    var headers := Headers(f);
    var projected := Project(sorted, headers);
    assert ShownRecords(f)[i] == projected.rows[t] by {
      var shown := Head(projected, TopRows);
      assert shown.index[i] == t && t in shown.rows;
    }
    SortDescWellFormed(f, VolumeCol);
    ProjectRow(sorted, headers, t);
  }

  /** Each shown record is the shown columns of the matching top instrument, nothing more. */
  lemma ShownRecordsRows(f: Frame)
    requires WellFormed(f)
    ensures var recs, ts := ShownRecords(f), TopTickers(f);
            && |recs| == |ts|
            && forall i :: 0 <= i < |ts| ==>
                 && ts[i] in f.rows
                 && recs[i].Keys == Elems(Headers(f))
                 && forall c :: c in Headers(f) ==> recs[i][c] == f.rows[ts[i]][c]
  {
    forall i | 0 <= i < |TopTickers(f)|
      ensures TopTickers(f)[i] in f.rows
      ensures ShownRecords(f)[i].Keys == Elems(Headers(f))
      ensures forall c :: c in Headers(f) ==> ShownRecords(f)[i][c] == f.rows[TopTickers(f)[i]][c]
    {
      ShownRecordAt(f, i);
    }
  }

  /** What a shown day holds: its date, the shown columns, and the records of the top instruments. */
  lemma DayViewShown(day: Day, f: Frame)
    requires !IsEmpty(f) && VolumesSortable(f)
    ensures DayView(day, Some(f)) == Success(DayInfo(FormatDate(day), Headers(f), Some(ShownRecords(f))))
  {
  }

  /** The table stored for `day` in market `market`, or `None`: `all_data.get(market, {}).get(day)`. */
  function DayTable(allData: Snapshot, market: Market, day: Day): (df: Option<Frame>)
    ensures df.Some? <==> market in allData && day in allData[market]
    ensures df.Some? ==> df.value == allData[market][day]
  {
    if market in allData && day in allData[market] then Some(allData[market][day]) else None
  }

  /** The view of each of `days` in turn, or the error of the first one that raises. */
  function DailyView(allData: Snapshot, market: Market, days: seq<Day>): Result<seq<DayInfo>, Error>
  {
    if days == [] then Success([])
    else
      var first :- DayView(days[0], DayTable(allData, market, days[0]));
      var rest :- DailyView(allData, market, days[1..]);
      Success([first] + rest)
  }

  /** The page is built exactly when no working day's view raises. */
  lemma {:induction false} DailyViewSucceeds(allData: Snapshot, market: Market, days: seq<Day>)
    ensures DailyView(allData, market, days).Success? <==>
              forall i :: 0 <= i < |days| ==> DayView(days[i], DayTable(allData, market, days[i])).Success?
  {
    if days != [] {
      DailyViewSucceeds(allData, market, days[1..]);
      assert forall i :: 0 < i < |days| ==> days[i] == days[1..][i - 1];
    }
  }

  /** The page lists one entry per working day, in working-day order. */
  lemma {:induction false} DailyViewPerDay(allData: Snapshot, market: Market, days: seq<Day>)
    requires DailyView(allData, market, days).Success?
    ensures var v := DailyView(allData, market, days).value;
            && |v| == |days|
            && forall i :: 0 <= i < |days| ==> DayView(days[i], DayTable(allData, market, days[i])) == Success(v[i])
  {
    if days != [] {
      DailyViewPerDay(allData, market, days[1..]);
      assert forall i :: 0 < i < |days| ==> days[i] == days[1..][i - 1];
    }
  }

  /** A page that raises reports the error of the first working day whose view raises. */
  lemma {:induction false} DailyViewFirstError(allData: Snapshot, market: Market, days: seq<Day>)
    requires DailyView(allData, market, days).Failure?
    ensures exists i :: && 0 <= i < |days|
                        && DayView(days[i], DayTable(allData, market, days[i])) == Failure(DailyView(allData, market, days).error)
                        && forall j :: 0 <= j < i ==> DayView(days[j], DayTable(allData, market, days[j])).Success?
  {
    var head := DayView(days[0], DayTable(allData, market, days[0]));
    if head.Success? {
      var rest := DailyView(allData, market, days[1..]);
      DailyViewFirstError(allData, market, days[1..]);
      var i :| && 0 <= i < |days[1..]|
               && DayView(days[1..][i], DayTable(allData, market, days[1..][i])) == Failure(rest.error)
               && forall j :: 0 <= j < i ==> DayView(days[1..][j], DayTable(allData, market, days[1..][j])).Success?;
      FirstErrorCons(allData, market, days, i, rest.error);
    }
  }

  /** A first day that shows, followed by a tail whose day `i` is its first to raise, makes day `i + 1` the first to raise. */
  lemma FirstErrorCons(allData: Snapshot, market: Market, days: seq<Day>, i: nat, e: Error)
    requires i < |days| - 1 && DayView(days[0], DayTable(allData, market, days[0])).Success?
    requires DayView(days[1..][i], DayTable(allData, market, days[1..][i])) == Failure(e)
    requires forall j :: 0 <= j < i ==> DayView(days[1..][j], DayTable(allData, market, days[1..][j])).Success?
    ensures DayView(days[i + 1], DayTable(allData, market, days[i + 1])) == Failure(e)
    ensures forall j :: 0 <= j < i + 1 ==> DayView(days[j], DayTable(allData, market, days[j])).Success?
  {
    assert days[i + 1] == days[1..][i];
    forall j | 0 < j < i + 1 ensures DayView(days[j], DayTable(allData, market, days[j])).Success? {
      assert days[j] == days[1..][j - 1];
    }
  }

  /** A market the cache does not hold shows every working day with no records. */
  lemma UnknownMarketShowsNothing(allData: Snapshot, market: Market, days: seq<Day>)
    requires market !in allData
    ensures DailyView(allData, market, days).Success? && |DailyView(allData, market, days).value| == |days|
    ensures forall i :: 0 <= i < |days| ==>
              DailyView(allData, market, days).value[i] == DayInfo(FormatDate(days[i]), [], None)
  {
    DailyViewSucceeds(allData, market, days);
    DailyViewPerDay(allData, market, days);
  }

  /** `acc` followed by the entries of `rest`, or the error of `rest`. */
  function Prefixed(acc: seq<DayInfo>, rest: Result<seq<DayInfo>, Error>): Result<seq<DayInfo>, Error> {
    match rest
    case Success(v) => Success(acc + v)
    case Failure(e) => Failure(e)
  }

  /** Taking one more day off the front of the remaining work: its view raises, or is appended. */
  lemma PrefixedStep(allData: Snapshot, market: Market, days: seq<Day>, acc: seq<DayInfo>)
    requires days != []
    ensures var head := DayView(days[0], DayTable(allData, market, days[0]));
            && (head.Failure? ==> Prefixed(acc, DailyView(allData, market, days)) == Failure(head.error))
            && (head.Success? ==> Prefixed(acc, DailyView(allData, market, days))
                                  == Prefixed(acc + [head.value], DailyView(allData, market, days[1..])))
  {
    var head := DayView(days[0], DayTable(allData, market, days[0]));
    var rest := DailyView(allData, market, days[1..]);
    if head.Success? && rest.Success? {
      assert acc + ([head.value] + rest.value) == acc + [head.value] + rest.value;
    }
  }

  /** Lines 104-126: the loop that builds `daily_data`, one entry appended per working day. */
  method DailyData(allData: Snapshot, workingDays: seq<Day>, market: Market) returns (r: Result<seq<DayInfo>, Error>)
    ensures r == DailyView(allData, market, workingDays)
  {
    var dailyData: seq<DayInfo> := [];
    var i := 0;
    assert workingDays[0..] == workingDays;
    assert forall v: seq<DayInfo> :: [] + v == v;
    while i < |workingDays|
      invariant 0 <= i <= |workingDays|
      invariant DailyView(allData, market, workingDays) == Prefixed(dailyData, DailyView(allData, market, workingDays[i..]))
    {
      var day := workingDays[i];
      var dayInfo := DayView(day, DayTable(allData, market, day));
      assert workingDays[i..][0] == day && workingDays[i..][1..] == workingDays[i + 1..];
      PrefixedStep(allData, market, workingDays[i..], dailyData);
      if dayInfo.Failure? {
        return Failure(dayInfo.error);
      }
      dailyData := dailyData + [dayInfo.value];
      i := i + 1;
    }
    assert workingDays[i..] == [];
    assert dailyData + [] == dailyData;
    r := Success(dailyData);
  }

  /**
   * `show_table` for a market: read the cache (refreshing it when stale), then build the
   * page's entries; an exception of the refresh or of a day's view propagates.
   */
  method ShowTable(cache: StockDataCache, p: WfProvider, now: real, clock: real, market: Market)
      returns (r: Result<seq<DayInfo>, Error>)
    modifies cache
    ensures var step := GetDataSpec(old(cache.State()), p.businessDays, Fetcher(p), now, clock);
            && cache.State() == step.state
            && r == if step.outcome.Fail? then Failure(step.outcome.error)
                    else DailyView(step.state.data, market, step.state.workingDays)
  {
    var got := cache.GetData(p, now, clock);
    if got.Failure? {
      return Failure(got.error);
    }
    var (allData, workingDays) := got.value;
    r := DailyData(allData, workingDays, market);
  }
}
