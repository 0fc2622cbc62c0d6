/**
 * The older single-day pipeline: the whole market's cap table for one working day gets
 * an unguarded turnover column in place, is joined with the fundamentals, gets the
 * instrument names, and is sorted by turnover, largest first.
 */
module SimpleProj {
  import opened Wrappers
  import opened Frames
  import opened Krx
  import Turnover
  import DailySnapshot

  /** The market argument that asks the provider for every segment at once. */
  const AllMarkets: Market := "ALL"

  /** A table the code changes in place. */
  class DataFrame {
    var frame: Frame

    constructor (f: Frame)
      ensures frame == f
    {
      frame := f;
    }

    /** `df[c] = vals`: set column `c` of every row. */
    method SetColumn(c: ColName, vals: map<Ticker, Cell>)
      requires frame.rows.Keys <= vals.Keys
      modifies this
      ensures frame == WithColumn(old(frame), c, vals)
    {
      frame := WithColumn(frame, c, vals);
    }
  }

  /** No row has a listed-share count of zero, the one divisor the formula cannot take. */
  predicate NoZeroShares(f: Frame) {
    forall t :: t in f.rows && HasNum(f.rows[t], SharesCol) ==> f.rows[t][SharesCol].x != 0.0
  }

  /**
   * `(x['거래량'] / x['상장주식수']) * 100` with no guard: both operands are looked up, the
   * volume first, before the division, so a missing cell raises a key error whatever the
   * other cell holds; only then does a non-numeric operand raise a type error.
   */
  function UnguardedTurnover(r: Row): (res: Result<real, Error>)
    requires HasNum(r, SharesCol) ==> r[SharesCol].x != 0.0
    ensures res.Success? <==> HasNum(r, VolumeCol) && HasNum(r, SharesCol)
    ensures VolumeCol !in r ==> res == Failure(KeyError(VolumeCol))
    ensures VolumeCol in r && SharesCol !in r ==> res == Failure(KeyError(SharesCol))
    ensures res.Failure? && VolumeCol in r && SharesCol in r ==> res.error.TypeError?
  {
    if VolumeCol !in r then Failure(KeyError(VolumeCol))
    else if SharesCol !in r then Failure(KeyError(SharesCol))
    else if !r[VolumeCol].Num? then Failure(TypeError(VolumeCol))
    else if !r[SharesCol].Num? then Failure(TypeError(SharesCol))
    else Success(Turnover.Percent(r[VolumeCol].x, r[SharesCol].x))
  }

  /** The unguarded ratio is a percentage of the listed shares too: it gives the volume back. */
  lemma {:induction false} UnguardedRecoversVolume(r: Row)
    requires HasNum(r, VolumeCol) && HasNum(r, SharesCol) && r[SharesCol].x != 0.0
    ensures UnguardedTurnover(r).Success?
    ensures UnguardedTurnover(r).value * r[SharesCol].x / 100.0 == r[VolumeCol].x
  {
    var v, s := r[VolumeCol].x, r[SharesCol].x;
    assert UnguardedTurnover(r).value == Turnover.Percent(v, s) == v / s * 100.0;
    assert v / s * 100.0 * s / 100.0 == v / s * s;
  }

  /** The ratio of every row of `ts`, or the error of the first row that raises. */
  function UnguardedValues(f: Frame, ts: seq<Ticker>): (res: Result<map<Ticker, real>, Error>)
    requires Elems(ts) <= f.rows.Keys && NoZeroShares(f)
    ensures res.Success? <==> forall t :: t in ts ==> UnguardedTurnover(f.rows[t]).Success?
    ensures res.Success? ==> res.value.Keys == Elems(ts)
    ensures res.Success? ==> forall t :: t in res.value ==> UnguardedTurnover(f.rows[t]) == Success(res.value[t])
  {
    if ts == [] then Success(map[])
    else
      assert ts == [ts[0]] + ts[1..];
      assert Elems(ts) == Elems(ts[1..]) + {ts[0]};
      var head := UnguardedTurnover(f.rows[ts[0]]);
      if head.Failure? then Failure(head.error)
      else
        var rest := UnguardedValues(f, ts[1..]);
        if rest.Failure? then Failure(rest.error)
        else Success(rest.value[ts[0] := head.value])
  }

  /** The turnover column `calDailyStockTurnOverRatio` writes: the ratio of every row. */
  function UnguardedColumn(vals: map<Ticker, real>): (col: map<Ticker, Cell>)
    ensures col.Keys == vals.Keys
    ensures forall t :: t in col ==> col[t] == Num(vals[t])
  {
    map t | t in vals :: Num(vals[t])
  }

  /** The frame `calDailyStockTurnOverRatio` leaves behind: the turnover column set on every row. */
  function WithUnguardedTurnover(f: Frame): (res: Result<Frame, Error>)
    requires WellFormed(f) && NoZeroShares(f)
    ensures res.Success? <==> forall t :: t in f.rows ==> HasNum(f.rows[t], VolumeCol) && HasNum(f.rows[t], SharesCol)
    ensures res.Success? ==> WellFormed(res.value)
    ensures res.Success? ==> res.value.index == f.index && res.value.rows.Keys == f.rows.Keys
    ensures res.Success? ==> Elems(res.value.columns) == Elems(f.columns) + {TurnoverCol}
  {
    var vals :- UnguardedValues(f, f.index);
    WithColumnWellFormed(f, TurnoverCol, UnguardedColumn(vals));
    Success(WithColumn(f, TurnoverCol, UnguardedColumn(vals)))
  }

  /** The value of the formula on a row that has both numbers. */
  lemma UnguardedTurnoverValue(r: Row)
    requires HasNum(r, VolumeCol) && HasNum(r, SharesCol) && r[SharesCol].x != 0.0
    ensures UnguardedTurnover(r) == Success(Turnover.Percent(r[VolumeCol].x, r[SharesCol].x))
  {
  }

  /**
   * Each row of the result is its old row with the turnover cell added: volume over listed
   * shares, in percent; every other cell is kept.
   */
  lemma UnguardedTurnoverCell(f: Frame, t: Ticker)
    requires WellFormed(f) && NoZeroShares(f)
    requires WithUnguardedTurnover(f).Success? && t in WithUnguardedTurnover(f).value.rows
    ensures t in f.rows && HasNum(f.rows[t], VolumeCol) && HasNum(f.rows[t], SharesCol)
    ensures var row := WithUnguardedTurnover(f).value.rows[t];
            && row.Keys == f.rows[t].Keys + {TurnoverCol}
            && row[TurnoverCol] == Num(Turnover.Percent(f.rows[t][VolumeCol].x, f.rows[t][SharesCol].x))
            && forall c :: c in f.rows[t] && c != TurnoverCol ==> row[c] == f.rows[t][c]
  {
    var vals := UnguardedValues(f, f.index).value;
    var g := WithColumn(f, TurnoverCol, UnguardedColumn(vals));
    assert WithUnguardedTurnover(f).value == g;
    assert UnguardedTurnover(f.rows[t]) == Success(vals[t]);
    UnguardedTurnoverValue(f.rows[t]);
  }

  /** Where the listed shares are positive the two formulas agree: the guard only matters for the rest. */
  lemma UnguardedAgreesWithGuarded(r: Row)
    requires HasNum(r, VolumeCol) && HasNum(r, SharesCol) && r[SharesCol].x > 0.0
    ensures UnguardedTurnover(r) == Turnover.GuardedTurnover(r)
  {
  }

  /** Lines 4-10: set the turnover column of `marketCap` in place and hand the same object back. */
  method CalDailyStockTurnOverRatio(workingDay: Day, marketCap: DataFrame) returns (r: Result<DataFrame, Error>)
    requires WellFormed(marketCap.frame) && NoZeroShares(marketCap.frame)
    modifies marketCap
    ensures var res := WithUnguardedTurnover(old(marketCap.frame));
            && (r.Success? <==> res.Success?)
            && (r.Success? ==> r.value == marketCap && marketCap.frame == res.value)
            && (r.Failure? ==> r.error == res.error && marketCap.frame == old(marketCap.frame))
  {
    var vals := UnguardedValues(marketCap.frame, marketCap.frame.index);
    if vals.Failure? {
      return Failure(vals.error);
    }
    marketCap.SetColumn(TurnoverCol, UnguardedColumn(vals.value));
    r := Success(marketCap);
  }

  /** The provider's cap table for the day has no zero share count, so the unguarded formula can be applied. */
  predicate Computable(p: WfProvider, workingDay: Day) {
    p.marketCap(workingDay, AllMarkets).Some? ==> NoZeroShares(p.marketCap(workingDay, AllMarkets).value)
  }

  /** The frame `buildBasicStockData` returns for `workingDay`, or the exception it raises. */
  function BasicStockData(p: WfProvider, workingDay: Day): (res: Result<Frame, Error>)
    requires Computable(p, workingDay)
    ensures res.Success? ==> WellFormed(res.value)
    ensures p.marketCap(workingDay, AllMarkets).None? ==> res == Failure(ProviderError)
  {
    var cap :- Call(p.marketCap(workingDay, AllMarkets));
    var withTurnover :- WithUnguardedTurnover(cap);
    var fund :- Call(p.fundamental(workingDay, AllMarkets));
    var combined :- Join(withTurnover, fund);
    var named := DailySnapshot.WithNames(combined, p.tickerName);
    SortDescWellFormed(named, TurnoverCol);
    Success(SortDesc(named, TurnoverCol))
  }

  /** Lines 12-21, with the working day the provider resolves passed in. */
  method BuildBasicStockData(p: WfProvider, workingDay: Day) returns (r: Result<Frame, Error>)
    requires Computable(p, workingDay)
    ensures r == BasicStockData(p, workingDay)
  {
    var capFrame := p.marketCap(workingDay, AllMarkets);
    if capFrame.None? {
      return Failure(ProviderError);
    }
    var marketCapDf := new DataFrame(capFrame.value);
    var withTurnover := CalDailyStockTurnOverRatio(workingDay, marketCapDf);
    if withTurnover.Failure? {
      return Failure(withTurnover.error);
    }
    var fundFrame := p.fundamental(workingDay, AllMarkets);
    if fundFrame.None? {
      return Failure(ProviderError);
    }
    var joined := Join(marketCapDf.frame, fundFrame.value);
    if joined.Failure? {
      return Failure(joined.error);
    }
    var combinedDf := new DataFrame(joined.value);
    combinedDf.SetColumn(NameCol, map t | t in combinedDf.frame.rows :: Text(p.tickerName(t)));
    r := Success(SortDesc(combinedDf.frame, TurnoverCol));
  }

  /** The stages a successful build went through. */
  lemma BasicStockDataUnfold(p: WfProvider, workingDay: Day)
    requires Computable(p, workingDay) && BasicStockData(p, workingDay).Success?
    ensures p.marketCap(workingDay, AllMarkets).Some? && p.fundamental(workingDay, AllMarkets).Some?
    ensures var cap, fund := p.marketCap(workingDay, AllMarkets).value, p.fundamental(workingDay, AllMarkets).value;
            && WithUnguardedTurnover(cap).Success?
            && Join(WithUnguardedTurnover(cap).value, fund).Success?
            && var combined := Join(WithUnguardedTurnover(cap).value, fund).value;
               BasicStockData(p, workingDay).value == SortDesc(DailySnapshot.WithNames(combined, p.tickerName), TurnoverCol)
  {
  }

  /** The result holds exactly the instruments present in both the cap table and the fundamentals. */
  lemma BasicStockDataIds(p: WfProvider, workingDay: Day)
    requires Computable(p, workingDay) && BasicStockData(p, workingDay).Success?
    ensures p.marketCap(workingDay, AllMarkets).Some? && p.fundamental(workingDay, AllMarkets).Some?
    ensures BasicStockData(p, workingDay).value.rows.Keys
            == p.marketCap(workingDay, AllMarkets).value.rows.Keys * p.fundamental(workingDay, AllMarkets).value.rows.Keys
  {
    BasicStockDataUnfold(p, workingDay);
  }

  /**
   * Every row of the result carries the turnover computed from its cap-table row before
   * the join, and the looked-up name of its instrument.
   */
  lemma BasicStockDataCells(p: WfProvider, workingDay: Day, t: Ticker)
    requires Computable(p, workingDay) && BasicStockData(p, workingDay).Success?
    requires t in BasicStockData(p, workingDay).value.rows
    ensures p.marketCap(workingDay, AllMarkets).Some?
    ensures var cap, row := p.marketCap(workingDay, AllMarkets).value, BasicStockData(p, workingDay).value.rows[t];
            && t in cap.rows && HasNum(cap.rows[t], VolumeCol) && HasNum(cap.rows[t], SharesCol)
            && TurnoverCol in row && row[TurnoverCol] == Num(Turnover.Percent(cap.rows[t][VolumeCol].x, cap.rows[t][SharesCol].x))
            && NameCol in row && row[NameCol] == Text(p.tickerName(t))
  {
    BasicStockDataUnfold(p, workingDay);
    var cap, fund := p.marketCap(workingDay, AllMarkets).value, p.fundamental(workingDay, AllMarkets).value;
    var withTurnover := WithUnguardedTurnover(cap).value;
    var combined := Join(withTurnover, fund).value;
    var named := DailySnapshot.WithNames(combined, p.tickerName);
    var row := BasicStockData(p, workingDay).value.rows[t];
    assert row == named.rows[t];
    assert t in combined.rows && t in withTurnover.rows;
    assert TurnoverCol in combined.rows[t] && combined.rows[t][TurnoverCol] == withTurnover.rows[t][TurnoverCol] by {
      assert TurnoverCol in withTurnover.columns;
      assert fund.rows[t].Keys == Elems(fund.columns);
    }
    assert row[TurnoverCol] == withTurnover.rows[t][TurnoverCol];
    UnguardedTurnoverCell(cap, t);
  }

  /** The result is the joined rows in some order, largest turnover first. */
  lemma BasicStockDataSorted(p: WfProvider, workingDay: Day)
    requires Computable(p, workingDay) && BasicStockData(p, workingDay).Success?
    ensures p.marketCap(workingDay, AllMarkets).Some? && p.fundamental(workingDay, AllMarkets).Some?
    ensures var cap, fund := p.marketCap(workingDay, AllMarkets).value, p.fundamental(workingDay, AllMarkets).value;
            var g := BasicStockData(p, workingDay).value;
            && WithUnguardedTurnover(cap).Success?
            && Join(WithUnguardedTurnover(cap).value, fund).Success?
            && multiset(g.index) == multiset(Join(WithUnguardedTurnover(cap).value, fund).value.index)
            && forall i, j :: 0 <= i < j < |g.index| ==> NumAt(g, g.index[i], TurnoverCol) >= NumAt(g, g.index[j], TurnoverCol)
  {
    BasicStockDataUnfold(p, workingDay);
    var cap, fund := p.marketCap(workingDay, AllMarkets).value, p.fundamental(workingDay, AllMarkets).value;
    var combined := Join(WithUnguardedTurnover(cap).value, fund).value;
    var named := DailySnapshot.WithNames(combined, p.tickerName);
    var g := SortDesc(named, TurnoverCol);
    assert g == BasicStockData(p, workingDay).value;
    assert multiset(g.index) == multiset(combined.index);
    SortDescOrdered(named, TurnoverCol);
  }
}
