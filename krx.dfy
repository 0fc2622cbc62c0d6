/**
 * What the market-data provider (the pykrx client) hands to the pipelines, and the
 * column names of its frames. Every call that can raise gives an `Option`: `None`
 * stands for the call raising.
 */
module Krx {
  import opened Wrappers
  import opened Frames

  /** A trading day as the `%Y%m%d` text the code stores. */
  type Day = string
  /** A market segment, such as "KOSPI". */
  type Market = string

  const Kospi: Market := "KOSPI"
  const Kosdaq: Market := "KOSDAQ"

  const NameCol: ColName := "종목명"         // display name of the instrument
  const VolumeCol: ColName := "거래량"       // shares traded that day
  const SharesCol: ColName := "상장주식수"   // listed shares
  const TurnoverCol: ColName := "일일회전율" // derived daily turnover ratio, in percent
  const ChangeRateCol: ColName := "등락률"   // change rate against the previous close
  const CloseCol: ColName := "종가"
  const HighCol: ColName := "고가"
  const LowCol: ColName := "저가"

  datatype Provider = Provider(
    /** The business days from a week before the nearest business day up to it, ascending. */
    businessDays: Option<seq<Day>>,
    marketCap: (Day, Market) -> Option<Frame>,
    fundamental: (Day, Market) -> Option<Frame>,
    ohlcv: (Day, Market) -> Option<Frame>,
    tickerName: Ticker -> string)

  /** pandas hands out rectangular frames with a unique ticker index. */
  ghost predicate ProviderWellFormed(p: Provider) {
    && (forall d, m :: p.marketCap(d, m).Some? ==> WellFormed(p.marketCap(d, m).value))
    && (forall d, m :: p.fundamental(d, m).Some? ==> WellFormed(p.fundamental(d, m).value))
    && (forall d, m :: p.ohlcv(d, m).Some? ==> WellFormed(p.ohlcv(d, m).value))
  }

  /** The providers the model is about: those whose frames are well formed. */
  type WfProvider = p: Provider | ProviderWellFormed(p)
    witness Provider(None, (d, m) => None, (d, m) => None, (d, m) => None, t => "")

  /** A provider answer, with a raised call turned into `ProviderError`. */
  function Call(o: Option<Frame>): (r: Result<Frame, Error>)
    ensures r.Success? <==> o.Some?
    ensures r.Success? ==> r.value == o.value
    ensures r.Failure? ==> r.error == ProviderError
  {
    match o
    case Some(f) => Success(f)
    case None => Failure(ProviderError)
  }
}
