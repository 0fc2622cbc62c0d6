/**
 * The guarded daily turnover ratio of the cache's pipeline: traded volume as a
 * percentage of listed shares, 0 when the listed-share count is not positive.
 * The row function is applied to every row in index order; the first row whose cells
 * cannot be read raises, as pandas' `apply` does.
 */
module Turnover {
  import opened Wrappers
  import opened Frames
  import opened Krx

  /** Traded volume as a percentage of the listed shares. */
  function Percent(volume: real, shares: real): real
    requires shares != 0.0
  {
    volume / shares * 100.0
  }

  /**
   * `(x['거래량'] / x['상장주식수']) * 100 if x['상장주식수'] > 0 else 0`. The condition is
   * evaluated first, so a row with no positive share count never reads its volume.
   */
  function GuardedTurnover(r: Row): (res: Result<real, Error>)
    ensures res.Success? <==> HasNum(r, SharesCol) && (r[SharesCol].x > 0.0 ==> HasNum(r, VolumeCol))
    ensures HasNum(r, SharesCol) && r[SharesCol].x > 0.0 && HasNum(r, VolumeCol) ==>
              res == Success(Percent(r[VolumeCol].x, r[SharesCol].x))
    ensures HasNum(r, SharesCol) && r[SharesCol].x <= 0.0 ==> res == Success(0.0)
    ensures SharesCol !in r ==> res == Failure(KeyError(SharesCol))
  {
    if SharesCol !in r then Failure(KeyError(SharesCol))
    else if !r[SharesCol].Num? then Failure(TypeError(SharesCol))
    else if r[SharesCol].x > 0.0 then
      if VolumeCol !in r then Failure(KeyError(VolumeCol))
      else if !r[VolumeCol].Num? then Failure(TypeError(VolumeCol))
      else Success(Percent(r[VolumeCol].x, r[SharesCol].x))
    else Success(0.0)
  }

  /** The ratio is a percentage of the listed shares: it gives the volume back. */
  lemma {:induction false} TurnoverRecoversVolume(r: Row)
    requires HasNum(r, SharesCol) && r[SharesCol].x > 0.0 && HasNum(r, VolumeCol)
    ensures GuardedTurnover(r).Success?
    ensures GuardedTurnover(r).value * r[SharesCol].x / 100.0 == r[VolumeCol].x
    ensures 0.0 <= r[VolumeCol].x ==> 0.0 <= GuardedTurnover(r).value
    ensures 0.0 <= r[VolumeCol].x <= r[SharesCol].x ==> GuardedTurnover(r).value <= 100.0
  {
    var v, s := r[VolumeCol].x, r[SharesCol].x;
    assert GuardedTurnover(r).value == Percent(v, s) == v / s * 100.0;
    assert v / s * 100.0 * s / 100.0 == v / s * s;
    if 0.0 <= v <= s {
      assert v / s <= 1.0;
    }
  }

  /** The ratio of every row of `ts`, or the error of the first row that raises. */
  function TurnoverValues(f: Frame, ts: seq<Ticker>): (res: Result<map<Ticker, real>, Error>)
    requires Elems(ts) <= f.rows.Keys
    ensures res.Success? <==> forall t :: t in ts ==> GuardedTurnover(f.rows[t]).Success?
    ensures res.Success? ==> res.value.Keys == Elems(ts)
    ensures res.Success? ==> forall t :: t in res.value ==> GuardedTurnover(f.rows[t]) == Success(res.value[t])
  {
    if ts == [] then Success(map[])
    else
      assert ts == [ts[0]] + ts[1..];
      assert Elems(ts) == Elems(ts[1..]) + {ts[0]};
      var head := GuardedTurnover(f.rows[ts[0]]);
      if head.Failure? then Failure(head.error)
      else
        var rest := TurnoverValues(f, ts[1..]);
        if rest.Failure? then Failure(rest.error)
        else Success(rest.value[ts[0] := head.value])
  }

  /** The error raised is that of the first row, in `ts` order, that cannot be computed. */
  lemma {:induction false} TurnoverValuesFirstError(f: Frame, ts: seq<Ticker>)
    requires Elems(ts) <= f.rows.Keys
    requires TurnoverValues(f, ts).Failure?
    ensures exists i :: && 0 <= i < |ts|
                        && GuardedTurnover(f.rows[ts[i]]) == Failure(TurnoverValues(f, ts).error)
                        && forall j :: 0 <= j < i ==> GuardedTurnover(f.rows[ts[j]]).Success?
  {
    assert ts == [ts[0]] + ts[1..];
    assert Elems(ts) == Elems(ts[1..]) + {ts[0]};
    if GuardedTurnover(f.rows[ts[0]]).Success? {
      TurnoverValuesFirstError(f, ts[1..]);
      var i :| && 0 <= i < |ts[1..]|
               && GuardedTurnover(f.rows[ts[1..][i]]) == Failure(TurnoverValues(f, ts[1..]).error)
               && forall j :: 0 <= j < i ==> GuardedTurnover(f.rows[ts[1..][j]]).Success?;
      forall j | 0 <= j < i + 1 ensures GuardedTurnover(f.rows[ts[j]]).Success? {
        if j > 0 { assert ts[j] == ts[1..][j - 1]; }
      }
      assert ts[i + 1] == ts[1..][i];
    } else {
      assert GuardedTurnover(f.rows[ts[0]]) == Failure(TurnoverValues(f, ts).error);
    }
  }

  /**
   * `turnover_df['일일회전율'] = turnover_df.apply(...)` on a well-formed frame: the
   * turnover column is set on every row, or the first failing row's error is raised.
   */
  function WithTurnover(f: Frame): (res: Result<Frame, Error>)
    requires WellFormed(f)
    ensures res.Success? <==> forall t :: t in f.rows ==> GuardedTurnover(f.rows[t]).Success?
    ensures res.Success? ==> WellFormed(res.value)
    ensures res.Success? ==> res.value.index == f.index && res.value.rows.Keys == f.rows.Keys
    ensures res.Success? ==> Elems(res.value.columns) == Elems(f.columns) + {TurnoverCol}
    ensures res.Success? ==> forall t :: t in res.value.rows ==>
              && res.value.rows[t].Keys == f.rows[t].Keys + {TurnoverCol}
              && res.value.rows[t][TurnoverCol].Num?
              && GuardedTurnover(f.rows[t]) == Success(res.value.rows[t][TurnoverCol].x)
    ensures res.Success? ==> forall t, c :: t in res.value.rows && c in f.rows[t] && c != TurnoverCol ==>
              res.value.rows[t][c] == f.rows[t][c]
  {
    var vals := TurnoverValues(f, f.index);
    if vals.Failure? then Failure(vals.error)
    else
      var col := map t | t in vals.value :: Num(vals.value[t]);
      assert forall t :: t in f.rows ==> GuardedTurnover(f.rows[t]) == Success(col[t].x);
      WithColumnWellFormed(f, TurnoverCol, col);
      Success(WithColumn(f, TurnoverCol, col))
  }

  /** Only the share and volume cells are read: setting any other cell changes nothing. */
  lemma GuardedTurnoverIgnores(r: Row, c: ColName, v: Cell)
    requires c != SharesCol && c != VolumeCol
    ensures GuardedTurnover(r[c := v]) == GuardedTurnover(r)
  {
    var r' := r[c := v];
    assert (SharesCol in r' <==> SharesCol in r) && (SharesCol in r ==> r'[SharesCol] == r[SharesCol]);
    assert (VolumeCol in r' <==> VolumeCol in r) && (VolumeCol in r ==> r'[VolumeCol] == r[VolumeCol]);
  }
}
