/** The HTTP handlers (internal/api/handlers.go): the history endpoint and the
    configuration endpoints, over the monitor service. Requests arrive as
    their query strings or as an already bound configuration; replies are
    values. */
module Api {
  import opened Wrappers
  import opened Domain
  import opened Numbers
  import opened Repository
  import opened Monitor

  /** One chart sample `{t, v}`: Unix seconds and a rate or price. */
  datatype Sample = Sample(t: int, v: real)

  /** A JSON list: a Go slice that was never appended to is nil and goes out
      as `null`. */
  datatype JsonList = Null | List(items: seq<Sample>)

  datatype HistoryReply =
    | HistoryBadRequest(error: string)
    | HistoryOk(forex: JsonList, binance: JsonList, okx: JsonList)

  datatype ConfigReply = ConfigBadRequest(error: string) | Updated

  /** Which of the three history queries fail in the database. */
  datatype QueryFaults = QueryFaults(forex: bool, binance: bool, okx: bool)

  const HistoryLimit: int := 5000

  /** The start of the chart window: 7 or 30 days back for "7d" and "30d",
      one day back for every other token (including none). */
  function RangeStart(rangeStr: string, now: int): (start: int)
    ensures rangeStr == "7d" ==> start == now - 7 * 24 * 3600
    ensures rangeStr == "30d" ==> start == now - 30 * 24 * 3600
    ensures rangeStr != "7d" && rangeStr != "30d" ==> start == now - 24 * 3600
    ensures now - 30 * 24 * 3600 <= start < now
  {
    match rangeStr
    case "1d" => now - 24 * 3600
    case "7d" => now - 7 * 24 * 3600
    case "30d" => now - 30 * 24 * 3600
    case _ => now - 24 * 3600
  }

  /** The chart query: rank-1 USDT/CNY BUY prices of one exchange for the
      amount, inside [start, now], at most 5000 rows. */
  function HistoryFilter(exchange: string, amount: real, start: int, now: int): PriceQueryFilter
  {
    PriceQueryFilter(exchange, "USDT", "CNY", "BUY", Some(amount), 1, start, now, HistoryLimit)
  }

  function RateSamples(rates: seq<ForexRate>): (list: JsonList)
    ensures list.Null? <==> rates == []
    ensures list.List? ==>
              |list.items| == |rates| && forall i :: 0 <= i < |rates| ==> list.items[i] == Sample(rates[i].createdAt, rates[i].rate)
  {
    if rates == [] then Null else List(seq(|rates|, i requires 0 <= i < |rates| => Sample(rates[i].createdAt, rates[i].rate)))
  }

  function PriceSamples(points: seq<PricePoint>): (list: JsonList)
    ensures list.Null? <==> points == []
    ensures list.List? ==>
              |list.items| == |points| && forall i :: 0 <= i < |points| ==> list.items[i] == Sample(points[i].createdAt, points[i].price)
  {
    if points == [] then Null else List(seq(|points|, i requires 0 <= i < |points| => Sample(points[i].createdAt, points[i].price)))
  }

  /** The append loop over a forex answer. */
  method CollectRates(rates: seq<ForexRate>) returns (list: JsonList)
    ensures list == RateSamples(rates)
  {
    list := Null;
    var i := 0;
    while i < |rates|
      invariant 0 <= i <= |rates|
      invariant i == 0 <==> list.Null?
      invariant list.List? ==>
                  |list.items| == i && forall k :: 0 <= k < i ==> list.items[k] == Sample(rates[k].createdAt, rates[k].rate)
    {
      var prev := if list.Null? then [] else list.items;
      list := List(prev + [Sample(rates[i].createdAt, rates[i].rate)]);
      i := i + 1;
    }
  }

  /** The append loop over a price answer. */
  method CollectPrices(points: seq<PricePoint>) returns (list: JsonList)
    ensures list == PriceSamples(points)
  {
    list := Null;
    var i := 0;
    while i < |points|
      invariant 0 <= i <= |points|
      invariant i == 0 <==> list.Null?
      invariant list.List? ==>
                  |list.items| == i && forall k :: 0 <= k < i ==> list.items[k] == Sample(points[k].createdAt, points[k].price)
    {
      var prev := if list.Null? then [] else list.items;
      list := List(prev + [Sample(points[i].createdAt, points[i].price)]);
      i := i + 1;
    }
  }

  /** The chart series of one exchange, as `GetHistory` answers it when its
      query succeeds. */
  function ExchangeSeries(t: TableState, exchange: string, amount: real, start: int, now: int): JsonList
  {
    PriceSamples(PointsOf(SelectPrices(t.prices, HistoryFilter(exchange, amount, start, now)), t.merchants))
  }

  function ForexSeries(t: TableState, start: int, now: int): JsonList
  {
    RateSamples(RatesOf(SelectForex(t.forexRates, ForexPair, start, now)))
  }

  /** A stored row the chart of `exchange` may show: a rank-1 USDT/CNY BUY
      price of that exchange for exactly `amount`, inside the window. */
  predicate ChartRow(r: PriceRow, exchange: string, amount: real, start: int, now: int)
  {
    && r.exchange == exchange && r.symbol == "USDT" && r.fiat == "CNY" && r.side == "BUY"
    && r.rank == 1 && r.targetAmount == amount
    && (start != ZeroTime ==> start <= r.createdAt)
    && (now != ZeroTime ==> r.createdAt <= now)
  }

  /** The rows the history query selects for a chart. */
  lemma HistoryRowsAreChartRows(prices: seq<PriceRow>, exchange: string, amount: real, start: int, now: int)
    requires exchange != ""
    ensures var rows := SelectPrices(prices, HistoryFilter(exchange, amount, start, now));
            forall x :: x in rows ==> 1 <= x.id <= |prices| && prices[x.id - 1] == x.row && ChartRow(x.row, exchange, amount, start, now)
  {
    SelectedPricesMatch(prices, HistoryFilter(exchange, amount, start, now));
  }

  /** An exchange series holds at most 5000 samples, ascending in time. */
  lemma ExchangeSeriesOrdered(t: TableState, exchange: string, amount: real, start: int, now: int)
    ensures var s := ExchangeSeries(t, exchange, amount, start, now);
            s.List? ==>
              && |s.items| <= HistoryLimit
              && forall i, j :: 0 <= i < j < |s.items| ==> s.items[i].t <= s.items[j].t
  {
    var f := HistoryFilter(exchange, amount, start, now);
    SelectedPricesAscending(t.prices, f);
    SelectedPricesComplete(t.prices, f);
  }

  /** Every sample of an exchange's series is a stored row the chart may
      show (sample `k` is the time and price of the stored row whose id the
      `k`-th selected row carries); samples ascend in time and there are at
      most 5000. */
  lemma ExchangeSeriesIsRankOneHistory(t: TableState, exchange: string, amount: real, start: int, now: int)
    requires exchange != ""
    ensures var rows := SelectPrices(t.prices, HistoryFilter(exchange, amount, start, now));
            var s := ExchangeSeries(t, exchange, amount, start, now);
            s.List? ==>
              && |s.items| == |rows| <= HistoryLimit
              && (forall i, j :: 0 <= i < j < |s.items| ==> s.items[i].t <= s.items[j].t)
              && forall k :: 0 <= k < |s.items| ==>
                   && 1 <= rows[k].id <= |t.prices|
                   && s.items[k] == Sample(t.prices[rows[k].id - 1].createdAt, t.prices[rows[k].id - 1].price)
                   && ChartRow(t.prices[rows[k].id - 1], exchange, amount, start, now)
  {
    var rows := SelectPrices(t.prices, HistoryFilter(exchange, amount, start, now));
    HistoryRowsAreChartRows(t.prices, exchange, amount, start, now);
    ExchangeSeriesOrdered(t, exchange, amount, start, now);
    var s := ExchangeSeries(t, exchange, amount, start, now);
    if s.List? {
      forall k | 0 <= k < |s.items|
        ensures 1 <= rows[k].id <= |t.prices|
        ensures s.items[k] == Sample(t.prices[rows[k].id - 1].createdAt, t.prices[rows[k].id - 1].price)
        ensures ChartRow(t.prices[rows[k].id - 1], exchange, amount, start, now)
      {
        assert rows[k] in rows;
      }
    }
  }

  class Handler {
    const svc: MonitorService

    constructor (svc: MonitorService)
      ensures this.svc == svc
    {
      this.svc := svc;
    }

    /** `GetHistory`: the amount is required and must parse as a number; the
        three series are queried in turn and a failed query keeps its empty
        list. */
    method GetHistory(rangeStr: string, amountStr: string, now: int, faults: QueryFaults) returns (reply: HistoryReply)
      ensures amountStr == "" ==> reply == HistoryBadRequest("amount parameter is required")
      ensures amountStr != "" && GoParseFloat(amountStr).None? ==> reply == HistoryBadRequest("invalid amount")
      ensures amountStr != "" && GoParseFloat(amountStr).Some? ==>
                var amount := GoParseFloat(amountStr).value;
                var start := RangeStart(rangeStr, now);
                var t := svc.repo.State();
                reply == HistoryOk(if faults.forex then List([]) else ForexSeries(t, start, now),
                                   if faults.binance then List([]) else ExchangeSeries(t, "Binance", amount, start, now),
                                   if faults.okx then List([]) else ExchangeSeries(t, "OKX", amount, start, now))
    {
      if amountStr == "" {
        return HistoryBadRequest("amount parameter is required");
      }
      var parsed := GoParseFloat(amountStr);
      if parsed.None? {
        return HistoryBadRequest("invalid amount");
      }
      var amount := parsed.value;
      var startTime := RangeStart(rangeStr, now);
      var filter := HistoryFilter("", amount, startTime, now);
      var forex, binance, okx := List([]), List([]), List([]);

      var forexHistory := svc.GetForexHistory(ForexPair, startTime, now, faults.forex);
      if forexHistory.Success? {
        forex := CollectRates(forexHistory.value);
      }

      filter := filter.(exchange := "Binance");
      var binancePrices := svc.GetPriceHistory(filter, faults.binance);
      if binancePrices.Success? {
        binance := CollectPrices(binancePrices.value);
      }

      filter := filter.(exchange := "OKX");
      var okxPrices := svc.GetPriceHistory(filter, faults.okx);
      if okxPrices.Success? {
        okx := CollectPrices(okxPrices.value);
      }
      return HistoryOk(forex, binance, okx);
    }

    /** `GetConfig`: the service's configuration itself, with no envelope. */
    method GetConfig() returns (c: MonitorConfig)
      ensures c == svc.cfg
    {
      c := svc.GetConfig();
    }

    /** `UpdateConfig`: a body that binds replaces the configuration; one
        that does not is a bad request and changes nothing. */
    method UpdateConfig(bound: Result<MonitorConfig, string>) returns (reply: ConfigReply)
      modifies svc
      ensures bound.Failure? ==> reply == ConfigBadRequest(bound.error) && svc.cfg == old(svc.cfg)
      ensures bound.Success? ==> reply == Updated && svc.cfg == bound.value
      ensures svc.lastForex == old(svc.lastForex) && svc.Board() == old(svc.Board()) && svc.Memo() == old(svc.Memo())
    {
      if bound.Failure? {
        return ConfigBadRequest(bound.error);
      }
      svc.UpdateConfig(bound.value);
      return Updated;
    }
  }
}
