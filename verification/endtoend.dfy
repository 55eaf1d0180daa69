/** Properties that span the page and the server: the configuration the
    server sends and the page reads, the alert key the service builds and the
    page splits, and the history series the handler emits and the chart
    draws. */
module EndToEnd {
  import opened Wrappers
  import opened Domain
  import opened Numbers
  import Repository
  import Monitor
  import Api
  import Client

  // ----- MonitorConfig as JSON -----

  function Strs(xs: seq<string>): (r: seq<Client.JsValue>)
    ensures |r| == |xs|
  {
    seq(|xs|, i requires 0 <= i < |xs| => Client.Str(xs[i]))
  }

  /** A slice as JSON; an empty one is taken to be nil, which encodes as `null`. */
  function AmountsJson(xs: seq<real>): Client.JsValue
  {
    if xs == [] then Client.Null else Client.Arr(Client.Nums(xs))
  }

  function StringsJson(xs: seq<string>): Client.JsValue
  {
    if xs == [] then Client.Null else Client.Arr(Strs(xs))
  }

  /** `GetConfig`'s body: the configuration itself, without an envelope,
      under the Go field names of the untagged struct. */
  function ConfigJson(cfg: MonitorConfig): Client.JsValue
  {
    Client.Obj(map["C2CIntervalMinutes" := Client.Num(cfg.c2cIntervalMinutes as real),
                   "ForexIntervalHours" := Client.Num(cfg.forexIntervalHours as real),
                   "AlertThresholdPercent" := Client.Num(cfg.alertThresholdPercent),
                   "TargetAmounts" := AmountsJson(cfg.targetAmounts),
                   "Exchanges" := StringsJson(cfg.exchanges)])
  }

  /** What the page's property reads find in the configuration body. */
  lemma ConfigJsonReads(cfg: MonitorConfig)
    ensures var data := ConfigJson(cfg);
            && Client.Get(data, "data") == Client.Undefined
            && Client.Get(data, "C2CIntervalMinutes") == Client.Num(cfg.c2cIntervalMinutes as real)
            && Client.Get(data, "ForexIntervalHours") == Client.Num(cfg.forexIntervalHours as real)
            && Client.Get(data, "TargetAmounts") == AmountsJson(cfg.targetAmounts)
            && Client.Get(data, "target_amounts") == Client.Undefined
  {
  }

  /** The page reads the server's configuration faithfully except that a zero
      interval shows as its default (3 minutes, 1 hour); the amounts always
      come through, a nil list as an empty one. */
  lemma ServerConfigReconciles(cfg: MonitorConfig)
    ensures Client.Reconcile(ConfigJson(cfg)) ==
              Some(Client.ClientConfig(if cfg.c2cIntervalMinutes != 0 then Client.Num(cfg.c2cIntervalMinutes as real) else Client.Num(3.0),
                                       if cfg.forexIntervalHours != 0 then Client.Num(cfg.forexIntervalHours as real) else Client.Num(1.0),
                                       cfg.targetAmounts))
  {
    ConfigJsonReads(cfg);
    Client.NumbersOfNums(cfg.targetAmounts);
    assert Client.NumbersOf(Client.Or(AmountsJson(cfg.targetAmounts), Client.Arr([]))) == Some(cfg.targetAmounts);
  }

  // ----- alert key -----

  /** The key the service files an alert under splits on the page into the
      exchange, the side and the rounded amount, and that amount rebuilds the
      same key, as long as neither name contains '-'. */
  lemma AlertKeyRoundTrip(exchange: string, side: string, amount: real)
    requires '-' !in exchange && '-' !in side && amount >= 0.0
    ensures Client.ParseAlertKey(Monitor.MarketKey(exchange, side, amount)) ==
              Some(Client.ResetPayload(exchange, side, Some(RoundHalfEven(amount) as real)))
    ensures Monitor.MarketKey(exchange, side, RoundHalfEven(amount) as real) == Monitor.MarketKey(exchange, side, amount)
  {
    var d := FormatFixed0(amount);
    assert '-' !in d by {
      forall i | 0 <= i < |d| ensures d[i] != '-' {
        assert IsDigit(d[i]);
      }
    }
    Client.SplitThree(exchange, side, d, '-');
    assert Monitor.MarketKey(exchange, side, amount) == exchange + ['-'] + side + ['-'] + d;
    FormatFixed0ParsesBack(amount);
    FormatFixed0OfRounded(amount);
  }

  /** A negative tier prints with a leading '-', so its key splits into four
      parts on the page and the reset request is never sent. */
  lemma NegativeTierCannotReset(exchange: string, side: string, amount: real)
    requires '-' !in exchange && '-' !in side && amount < 0.0
    ensures |Client.Split(Monitor.MarketKey(exchange, side, amount), '-')| == 4
    ensures Client.ParseAlertKey(Monitor.MarketKey(exchange, side, amount)).None?
  {
    var d := NatToDigits(-RoundHalfEven(amount));
    assert '-' !in d by {
      forall i | 0 <= i < |d| ensures d[i] != '-' {
        assert IsDigit(d[i]);
      }
    }
    Client.SplitPrefix(d, [], '-');
    assert d + [] == d;
    Client.SplitAtSeparator("", d, '-');
    assert "" + ['-'] + d == "-" + d;
    Client.SplitAtSeparator(side, "-" + d, '-');
    Client.SplitAtSeparator(exchange, side + ['-'] + ("-" + d), '-');
    assert Monitor.MarketKey(exchange, side, amount) == exchange + ['-'] + (side + ['-'] + ("-" + d));
  }

  // ----- history series -----

  /** The page's reading of a handler list: `null` is absent. The handler
      sends only the time and the value. */
  function RawOf(list: Api.JsonList): Client.RawList
  {
    match list
    case Null => Client.Missing
    case List(items) =>
      Client.Items(seq(|items|, i requires 0 <= i < |items| =>
        Client.SeriesItem(items[i].t as real, Client.Num(items[i].v), Client.Undefined, Client.Undefined,
                          Client.Undefined, Client.Undefined, Client.Undefined)))
  }

  /** An exchange series reaches the chart as at most 5000 points ascending
      in time, an empty series as no points; since the handler sends no
      merchant fields, every tooltip shows the defaults. */
  lemma HistoryReachesChart(t: Repository.TableState, exchange: string, amount: real, start: int, now: int)
    ensures var s := Api.ExchangeSeries(t, exchange, amount, start, now);
            var pts := Client.ProcessData(RawOf(s));
            && (s.Null? ==> pts == [])
            && |pts| <= Api.HistoryLimit
            && (forall i, j :: 0 <= i < j < |pts| ==> pts[i].timeMs <= pts[j].timeMs)
            && forall i :: 0 <= i < |pts| ==> pts[i].merchant == Client.Undefined && pts[i].payMethods == Client.Undefined
  {
    Api.ExchangeSeriesOrdered(t, exchange, amount, start, now);
  }
}
