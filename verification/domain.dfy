/** The records the components exchange (internal/domain/interfaces.go, the
    monitor settings of config/config.go, and the alert-state and
    granularity types the repository uses). Instants are Unix seconds. */
module Domain {
  import opened Wrappers

  /** Go's zero `time.Time` (January 1, year 1, UTC) in Unix seconds; `IsZero`
      compares with it. */
  const ZeroTime: int := -62135596800

  /** One observed C2C offer. `rank` 1 is the best offer of a query. */
  datatype PricePoint = PricePoint(
    id: int,
    createdAt: int,
    exchange: string,
    symbol: string,
    fiat: string,
    side: string,
    targetAmount: real,
    rank: int,
    price: real,
    merchant: string,
    merchantId: string,
    payMethods: string,
    minAmount: real,
    maxAmount: real,
    availableAmount: real)

  datatype Merchant = Merchant(exchange: string, merchantId: string, nickName: string)

  datatype ForexRate = ForexRate(id: int, createdAt: int, source: string, pair: string, rate: real)

  /** History query; a field that is empty, `None`, non-positive or the zero
      time applies no condition. */
  datatype PriceQueryFilter = PriceQueryFilter(
    exchange: string,
    symbol: string,
    fiat: string,
    side: string,
    targetAmount: Option<real>,
    rank: int,
    startTime: int,
    endTime: int,
    limit: int)

  datatype ServiceStatus = ServiceStatus(name: string, status: string, message: string, lastCheck: int)

  /** Persisted dynamic threshold of one (exchange, side, amount) market. */
  datatype AlertState = AlertState(exchange: string, side: string, targetAmount: real, triggerPrice: real, lastAlertAt: int)

  /** History granularity; `Unrecognised` stands for every other value. */
  datatype Granularity = Raw | Hour | Day | Unrecognised

  datatype MonitorConfig = MonitorConfig(
    c2cIntervalMinutes: int,
    forexIntervalHours: int,
    alertThresholdPercent: real,
    targetAmounts: seq<real>,
    exchanges: seq<string>)
}
