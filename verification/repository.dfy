/** The MySQL repository (internal/infrastructure/persistence/mysql/repository.go)
    with every table held as a value: the raw price and forex tables as
    sequences in insertion order (a row's auto-increment id is its position
    plus one), the hourly and daily aggregates, merchants and alert states as
    maps keyed by their unique index. The SQL engine itself is abstract: a
    failing statement is the input `engineFails`, and a transaction that fails
    leaves every table as it was. */
module Repository {
  import opened Wrappers
  import opened Domain
  import Sorting

  datatype DbError = EngineError

  // ----- buckets and table names -----

  const HourSeconds: int := 3600
  const DaySeconds: int := 86400

  /** `bucketTime`: the start of the hour (Go's `Truncate(time.Hour)`, which
      counts from the zero time, an hour boundary), local midnight of the same
      date for a zone `zoneOffset` seconds east of UTC, or `t` itself. */
  function BucketTime(t: int, g: Granularity, zoneOffset: int): (b: int)
    ensures b <= t
    ensures g == Hour ==> b % HourSeconds == 0 && t - b < HourSeconds
    ensures g == Day ==> (b + zoneOffset) % DaySeconds == 0 && t - b < DaySeconds
    ensures g != Hour && g != Day ==> b == t
  {
    match g
    case Hour => t - t % HourSeconds
    case Day => t - (t + zoneOffset) % DaySeconds
    case _ => t
  }

  lemma BucketTimeIdempotent(t: int, g: Granularity, zoneOffset: int)
    ensures BucketTime(BucketTime(t, g, zoneOffset), g, zoneOffset) == BucketTime(t, g, zoneOffset)
  {
  }

  /** `c2cTableByGranularity`: one table per granularity, the raw table for
      every other value. */
  function C2CTableByGranularity(g: Granularity): (name: string)
    ensures g == Hour <==> name == "c2c_prices_hourly"
    ensures g == Day <==> name == "c2c_prices_daily"
    ensures g != Hour && g != Day <==> name == "c2c_prices"
  {
    match g
    case Hour => "c2c_prices_hourly"
    case Day => "c2c_prices_daily"
    case _ => "c2c_prices"
  }

  function ForexTableByGranularity(g: Granularity): (name: string)
    ensures g == Hour <==> name == "forex_rates_hourly"
    ensures g == Day <==> name == "forex_rates_daily"
    ensures g != Hour && g != Day <==> name == "forex_rates"
  {
    match g
    case Hour => "forex_rates_hourly"
    case Day => "forex_rates_daily"
    case _ => "forex_rates"
  }

  // ----- rows -----

  /** A row of `c2c_prices` (the merchant nickname lives in `merchants`). */
  datatype PriceRow = PriceRow(
    createdAt: int,
    exchange: string,
    symbol: string,
    fiat: string,
    side: string,
    targetAmount: real,
    rank: int,
    price: real,
    merchantId: string,
    payMethods: string,
    minAmount: real,
    maxAmount: real,
    availableAmount: real)

  function RowOf(p: PricePoint): PriceRow
  {
    PriceRow(p.createdAt, p.exchange, p.symbol, p.fiat, p.side, p.targetAmount, p.rank, p.price,
             p.merchantId, p.payMethods, p.minAmount, p.maxAmount, p.availableAmount)
  }

  function RowsOf(points: seq<PricePoint>): (rows: seq<PriceRow>)
    ensures |rows| == |points|
    ensures forall i :: 0 <= i < |points| ==> rows[i] == RowOf(points[i])
  {
    seq(|points|, i requires 0 <= i < |points| => RowOf(points[i]))
  }

  datatype ForexRow = ForexRow(createdAt: int, source: string, pair: string, rate: real)

  /** Unique index of the C2C aggregate tables. */
  datatype C2CKey = C2CKey(bucket: int, exchange: string, symbol: string, fiat: string, side: string,
                           targetAmount: real, rank: int)

  datatype C2CAggregate = C2CAggregate(createdAt: int, price: real)

  datatype ForexKey = ForexKey(bucket: int, pair: string)

  datatype ForexAggregate = ForexAggregate(createdAt: int, source: string, rate: real)

  datatype AlertKey = AlertKey(exchange: string, side: string, targetAmount: real)

  datatype AlertRow = AlertRow(triggerPrice: real, lastAlertAt: int)

  function C2CKeyOf(p: PricePoint, g: Granularity, zoneOffset: int): C2CKey
  {
    C2CKey(BucketTime(p.createdAt, g, zoneOffset), p.exchange, p.symbol, p.fiat, p.side, p.targetAmount, p.rank)
  }

  function Min(x: real, y: real): real { if x <= y then x else y }

  // ----- C2C aggregate upsert: keep the least price -----

  /** One `INSERT ... ON DUPLICATE KEY UPDATE price = LEAST(price, VALUES(price))`. */
  function UpsertLeast(table: map<C2CKey, C2CAggregate>, p: PricePoint, g: Granularity, zoneOffset: int)
    : (r: map<C2CKey, C2CAggregate>)
    ensures r.Keys == table.Keys + {C2CKeyOf(p, g, zoneOffset)}
    ensures var k := C2CKeyOf(p, g, zoneOffset);
            r[k].price == (if k in table then Min(table[k].price, p.price) else p.price)
            && r[k].createdAt == (if k in table then table[k].createdAt else k.bucket)
    ensures forall k :: k in table && k != C2CKeyOf(p, g, zoneOffset) ==> r[k] == table[k]
  {
    var k := C2CKeyOf(p, g, zoneOffset);
    if k in table then table[k := table[k].(price := Min(table[k].price, p.price))]
    else table[k := C2CAggregate(k.bucket, p.price)]
  }

  /** The upserts of a batch of points, in order. */
  function UpsertAllLeast(table: map<C2CKey, C2CAggregate>, points: seq<PricePoint>, g: Granularity, zoneOffset: int)
    : map<C2CKey, C2CAggregate>
  {
    if points == [] then table
    else UpsertLeast(UpsertAllLeast(table, points[..|points| - 1], g, zoneOffset), points[|points| - 1], g, zoneOffset)
  }

  /** After a batch of upserts, a key's aggregate price is the least price
      among its previous value and the batch's points with that key: it is
      below each of them and equal to one of them. */
  lemma {:induction false} AggregateKeepsMinimum(table: map<C2CKey, C2CAggregate>, points: seq<PricePoint>,
                                                 g: Granularity, zoneOffset: int, k: C2CKey)
    ensures var r := UpsertAllLeast(table, points, g, zoneOffset);
            && (k in r <==> k in table || exists i :: 0 <= i < |points| && C2CKeyOf(points[i], g, zoneOffset) == k)
            && (k in r ==> k in table ==> r[k].price <= table[k].price)
            && (k in r ==> forall i :: 0 <= i < |points| && C2CKeyOf(points[i], g, zoneOffset) == k ==> r[k].price <= points[i].price)
            && (k in r ==> (k in table && r[k].price == table[k].price)
                           || exists i :: 0 <= i < |points| && C2CKeyOf(points[i], g, zoneOffset) == k && r[k].price == points[i].price)
  {
    if points != [] {
      var n := |points| - 1;
      var prefix := points[..n];
      AggregateKeepsMinimum(table, prefix, g, zoneOffset, k);
      assert forall i :: 0 <= i < n ==> prefix[i] == points[i];
    }
  }

  // ----- forex aggregate upsert: last write wins -----

  /** One `INSERT ... ON DUPLICATE KEY UPDATE source = ?, rate = ?`. */
  function UpsertLatest(table: map<ForexKey, ForexAggregate>, rate: ForexRate, g: Granularity, zoneOffset: int)
    : (r: map<ForexKey, ForexAggregate>)
    ensures var k := ForexKey(BucketTime(rate.createdAt, g, zoneOffset), rate.pair);
            && r.Keys == table.Keys + {k}
            && r[k].rate == rate.rate && r[k].source == rate.source
            && r[k].createdAt == (if k in table then table[k].createdAt else k.bucket)
            && forall k' :: k' in table && k' != k ==> r[k'] == table[k']
  {
    var k := ForexKey(BucketTime(rate.createdAt, g, zoneOffset), rate.pair);
    if k in table then table[k := ForexAggregate(table[k].createdAt, rate.source, rate.rate)]
    else table[k := ForexAggregate(k.bucket, rate.source, rate.rate)]
  }

  // ----- history queries -----

  /** A raw row together with its auto-increment id. */
  datatype StoredPrice = StoredPrice(id: int, row: PriceRow)

  datatype StoredForex = StoredForex(id: int, row: ForexRow)

  function NumberPrices(rows: seq<PriceRow>): (s: seq<StoredPrice>)
    ensures |s| == |rows|
    ensures forall i :: 0 <= i < |rows| ==> s[i] == StoredPrice(i + 1, rows[i])
  {
    seq(|rows|, i requires 0 <= i < |rows| => StoredPrice(i + 1, rows[i]))
  }

  function NumberForex(rows: seq<ForexRow>): (s: seq<StoredForex>)
    ensures |s| == |rows|
    ensures forall i :: 0 <= i < |rows| ==> s[i] == StoredForex(i + 1, rows[i])
  {
    seq(|rows|, i requires 0 <= i < |rows| => StoredForex(i + 1, rows[i]))
  }

  /** The WHERE clause: each condition is added only when its filter field is
      set (non-empty text, an amount, a positive rank, a non-zero time); the
      time bounds are inclusive. */
  predicate Matches(r: PriceRow, f: PriceQueryFilter)
  {
    && (f.exchange != "" ==> r.exchange == f.exchange)
    && (f.symbol != "" ==> r.symbol == f.symbol)
    && (f.fiat != "" ==> r.fiat == f.fiat)
    && (f.side != "" ==> r.side == f.side)
    && (f.targetAmount.Some? ==> r.targetAmount == f.targetAmount.value)
    && (f.rank > 0 ==> r.rank == f.rank)
    && (f.startTime != ZeroTime ==> r.createdAt >= f.startTime)
    && (f.endTime != ZeroTime ==> r.createdAt <= f.endTime)
  }

  function FilterPrices(rows: seq<StoredPrice>, f: PriceQueryFilter): (r: seq<StoredPrice>)
    ensures multiset(r) <= multiset(rows)
    ensures forall x :: x in r ==> Matches(x.row, f)
    ensures forall x :: x in rows && Matches(x.row, f) ==> x in r
  {
    if rows == [] then []
    else
      assert rows == [rows[0]] + rows[1..];
      (if Matches(rows[0].row, f) then [rows[0]] else []) + FilterPrices(rows[1..], f)
  }

  function PriceTime(x: StoredPrice): real { x.row.createdAt as real }

  function ForexTime(x: StoredForex): real { x.row.createdAt as real }

  /** `LIMIT n` for a positive n; no limit otherwise. */
  function Take<T>(s: seq<T>, limit: int): (r: seq<T>)
    ensures limit > 0 && |s| > limit ==> r == s[..limit]
    ensures limit <= 0 || |s| <= limit ==> r == s
  {
    if limit > 0 && |s| > limit then s[..limit] else s
  }

  /** The rows the engine returns: matching rows, ascending by `created_at`
      (rows with equal times in id order), cut to the limit. */
  function SelectPrices(rows: seq<PriceRow>, f: PriceQueryFilter): seq<StoredPrice>
  {
    Take(Sorting.SortBy(FilterPrices(NumberPrices(rows), f), PriceTime), f.limit)
  }

  /** The history query returns only rows of the table that match the
      filter, each with its own id. */
  lemma SelectedPricesMatch(rows: seq<PriceRow>, f: PriceQueryFilter)
    ensures forall x :: x in SelectPrices(rows, f) ==>
              Matches(x.row, f) && 1 <= x.id <= |rows| && rows[x.id - 1] == x.row
  {
    var numbered := NumberPrices(rows);
    var sorted := Sorting.SortBy(FilterPrices(numbered, f), PriceTime);
    forall x | x in SelectPrices(rows, f) ensures Matches(x.row, f) && 1 <= x.id <= |rows| && rows[x.id - 1] == x.row {
      assert x in sorted;
      assert x in multiset(sorted);
      assert x in multiset(numbered);
      var i :| 0 <= i < |numbered| && numbered[i] == x;
    }
  }

  /** The history query returns its rows ascending by time. */
  lemma SelectedPricesAscending(rows: seq<PriceRow>, f: PriceQueryFilter)
    ensures var r := SelectPrices(rows, f);
            forall i, j :: 0 <= i < j < |r| ==> r[i].row.createdAt <= r[j].row.createdAt
  {
    var sorted := Sorting.SortBy(FilterPrices(NumberPrices(rows), f), PriceTime);
    var r := SelectPrices(rows, f);
    forall i, j | 0 <= i < j < |r| ensures r[i].row.createdAt <= r[j].row.createdAt {
      assert PriceTime(sorted[i]) <= PriceTime(sorted[j]);
    }
  }

  /** A positive limit cuts the answer to exactly that many rows when more
      match, and returns every match otherwise; without a limit every
      matching row of the table is returned. */
  lemma SelectedPricesComplete(rows: seq<PriceRow>, f: PriceQueryFilter)
    ensures var n := |FilterPrices(NumberPrices(rows), f)|;
            f.limit > 0 ==> |SelectPrices(rows, f)| == (if n < f.limit then n else f.limit)
    ensures f.limit <= 0 ==> |SelectPrices(rows, f)| == |FilterPrices(NumberPrices(rows), f)|
    ensures f.limit <= 0 || |FilterPrices(NumberPrices(rows), f)| <= f.limit ==>
              forall i :: 0 <= i < |rows| && Matches(rows[i], f) ==> StoredPrice(i + 1, rows[i]) in SelectPrices(rows, f)
  {
    var numbered := NumberPrices(rows);
    var filtered := FilterPrices(numbered, f);
    var sorted := Sorting.SortBy(filtered, PriceTime);
    assert |multiset(sorted)| == |multiset(filtered)|;
    if f.limit <= 0 || |filtered| <= f.limit {
      assert SelectPrices(rows, f) == sorted;
      forall i | 0 <= i < |rows| && Matches(rows[i], f) ensures StoredPrice(i + 1, rows[i]) in SelectPrices(rows, f) {
        assert numbered[i] in numbered;
        assert StoredPrice(i + 1, rows[i]) in multiset(sorted);
      }
    }
  }

  /** A limit applied to an ascending sequence drops only elements that are
      not smaller than any element it keeps. */
  lemma TakeOfSortedKeepsSmallest<T>(s: seq<T>, key: T -> real, limit: int)
    requires Sorting.SortedBy(s, key)
    ensures forall x, y :: x in Take(s, limit) && y in s && y !in Take(s, limit) ==> key(x) <= key(y)
  {
    forall x, y | x in Take(s, limit) && y in s && y !in Take(s, limit) ensures key(x) <= key(y) {
      var j :| 0 <= j < |s| && s[j] == y;
      var i :| 0 <= i < limit && s[..limit][i] == x;
    }
  }

  /** With `ORDER BY created_at ASC` a limit keeps the OLDEST matching rows:
      no matching row left out is older than a row returned. */
  lemma LimitKeepsOldest(rows: seq<PriceRow>, f: PriceQueryFilter)
    ensures var r := SelectPrices(rows, f);
            forall x, y :: x in r && y in FilterPrices(NumberPrices(rows), f) && y !in r ==> x.row.createdAt <= y.row.createdAt
  {
    var filtered := FilterPrices(NumberPrices(rows), f);
    var sorted := Sorting.SortBy(filtered, PriceTime);
    var r := Take(sorted, f.limit);
    assert r == SelectPrices(rows, f);
    TakeOfSortedKeepsSmallest(sorted, PriceTime, f.limit);
    forall x, y | x in r && y in filtered && y !in r ensures x.row.createdAt <= y.row.createdAt {
      assert y in multiset(sorted);
      assert PriceTime(x) <= PriceTime(y);
    }
  }

  predicate ForexMatches(r: ForexRow, pair: string, start: int, end: int)
  {
    && r.pair == pair
    && (start != ZeroTime ==> r.createdAt >= start)
    && (end != ZeroTime ==> r.createdAt <= end)
  }

  function FilterForex(rows: seq<StoredForex>, pair: string, start: int, end: int): (r: seq<StoredForex>)
    ensures multiset(r) <= multiset(rows)
    ensures forall x :: x in r ==> ForexMatches(x.row, pair, start, end)
    ensures forall x :: x in rows && ForexMatches(x.row, pair, start, end) ==> x in r
  {
    if rows == [] then []
    else
      assert rows == [rows[0]] + rows[1..];
      (if ForexMatches(rows[0].row, pair, start, end) then [rows[0]] else []) + FilterForex(rows[1..], pair, start, end)
  }

  function SelectForex(rows: seq<ForexRow>, pair: string, start: int, end: int): seq<StoredForex>
  {
    Sorting.SortBy(FilterForex(NumberForex(rows), pair, start, end), ForexTime)
  }

  /** The forex history query returns exactly the rows of the pair inside the
      (inclusive, optional) window, ascending by time. */
  lemma SelectForexSpec(rows: seq<ForexRow>, pair: string, start: int, end: int)
    ensures var r := SelectForex(rows, pair, start, end);
            && (forall x :: x in r ==> ForexMatches(x.row, pair, start, end) && 1 <= x.id <= |rows| && rows[x.id - 1] == x.row)
            && (forall i :: 0 <= i < |rows| && ForexMatches(rows[i], pair, start, end) ==> StoredForex(i + 1, rows[i]) in r)
            && (forall i, j :: 0 <= i < j < |r| ==> r[i].row.createdAt <= r[j].row.createdAt)
  {
    var numbered := NumberForex(rows);
    var sorted := SelectForex(rows, pair, start, end);
    forall x | x in sorted ensures ForexMatches(x.row, pair, start, end) && 1 <= x.id <= |rows| && rows[x.id - 1] == x.row {
      assert x in multiset(sorted);
      assert x in multiset(numbered);
      var i :| 0 <= i < |numbered| && numbered[i] == x;
    }
    forall i | 0 <= i < |rows| && ForexMatches(rows[i], pair, start, end) ensures StoredForex(i + 1, rows[i]) in sorted {
      assert numbered[i] in numbered;
      assert StoredForex(i + 1, rows[i]) in multiset(sorted);
    }
    forall i, j | 0 <= i < j < |sorted| ensures sorted[i].row.createdAt <= sorted[j].row.createdAt {
      assert ForexTime(sorted[i]) <= ForexTime(sorted[j]);
    }
  }

  /** The domain record built from a selected row; the nickname comes from the
      LEFT JOIN on (merchant id, exchange), empty when there is no merchant. */
  function PointOf(x: StoredPrice, merchants: map<(string, string), string>): PricePoint
  {
    var key := (x.row.exchange, x.row.merchantId);
    PricePoint(x.id, x.row.createdAt, x.row.exchange, x.row.symbol, x.row.fiat, x.row.side, x.row.targetAmount,
               x.row.rank, x.row.price, if key in merchants then merchants[key] else "", x.row.merchantId,
               x.row.payMethods, x.row.minAmount, x.row.maxAmount, x.row.availableAmount)
  }

  function PointsOf(xs: seq<StoredPrice>, merchants: map<(string, string), string>): (ps: seq<PricePoint>)
    ensures |ps| == |xs|
    ensures forall i :: 0 <= i < |xs| ==> ps[i] == PointOf(xs[i], merchants)
  {
    seq(|xs|, i requires 0 <= i < |xs| => PointOf(xs[i], merchants))
  }

  function RateOf(x: StoredForex): ForexRate
  {
    ForexRate(x.id, x.row.createdAt, x.row.source, x.row.pair, x.row.rate)
  }

  function RatesOf(xs: seq<StoredForex>): (rs: seq<ForexRate>)
    ensures |rs| == |xs|
    ensures forall i :: 0 <= i < |xs| ==> rs[i] == RateOf(xs[i])
  {
    seq(|xs|, i requires 0 <= i < |xs| => RateOf(xs[i]))
  }

  /** Position of the row `ORDER BY created_at DESC` then by id (gorm's `First`)
      puts first among the rows of `pair`. */
  function LatestIndex(rows: seq<ForexRow>, pair: string): (r: Option<nat>)
    ensures r.Some? ==> r.value < |rows|
  {
    if rows == [] then None
    else
      var n := |rows| - 1;
      var prev := LatestIndex(rows[..n], pair);
      if rows[n].pair == pair && (prev.None? || rows[n].createdAt > rows[prev.value].createdAt) then Some(n)
      else prev
  }

  /** The latest row of a pair: there is one exactly when some row has the
      pair; it is not older than any row of the pair, and every earlier row of
      the pair is strictly older. */
  lemma {:induction false} LatestIndexIsNewest(rows: seq<ForexRow>, pair: string)
    ensures LatestIndex(rows, pair).None? <==> forall j :: 0 <= j < |rows| ==> rows[j].pair != pair
    ensures LatestIndex(rows, pair).Some? ==>
              var k := LatestIndex(rows, pair).value;
              && rows[k].pair == pair
              && (forall j :: 0 <= j < |rows| && rows[j].pair == pair ==> rows[j].createdAt <= rows[k].createdAt)
              && (forall j :: 0 <= j < k && rows[j].pair == pair ==> rows[j].createdAt < rows[k].createdAt)
  {
    if rows != [] {
      var n := |rows| - 1;
      LatestIndexIsNewest(rows[..n], pair);
      assert forall j :: 0 <= j < n ==> rows[..n][j] == rows[j];
    }
  }

  /** The scan loop of `GetPriceHistory`: one record per selected row. */
  method JoinNicknames(rows: seq<StoredPrice>, merchants: map<(string, string), string>) returns (results: seq<PricePoint>)
    ensures results == PointsOf(rows, merchants)
  {
    results := [];
    var i := 0;
    while i < |rows|
      invariant 0 <= i <= |rows|
      invariant |results| == i
      invariant forall k :: 0 <= k < i ==> results[k] == PointOf(rows[k], merchants)
    {
      results := results + [PointOf(rows[i], merchants)];
      i := i + 1;
    }
  }

  // ----- the repository -----

  /** The content of every table. */
  datatype TableState = TableState(
    prices: seq<PriceRow>,
    pricesHourly: map<C2CKey, C2CAggregate>,
    pricesDaily: map<C2CKey, C2CAggregate>,
    merchants: map<(string, string), string>,
    forexRates: seq<ForexRow>,
    forexHourly: map<ForexKey, ForexAggregate>,
    forexDaily: map<ForexKey, ForexAggregate>,
    alertStates: map<AlertKey, AlertRow>)

  /** The tables after a successful `SavePricePoints` of a non-empty batch. */
  function SavedPrices(t: TableState, points: seq<PricePoint>, zoneOffset: int): TableState
  {
    t.(prices := t.prices + RowsOf(points),
       pricesHourly := UpsertAllLeast(t.pricesHourly, points, Hour, zoneOffset),
       pricesDaily := UpsertAllLeast(t.pricesDaily, points, Day, zoneOffset))
  }

  function MerchantRow(t: TableState, m: Merchant): TableState
  {
    t.(merchants := t.merchants[(m.exchange, m.merchantId) := m.nickName])
  }

  function SavedForex(t: TableState, rate: ForexRate, zoneOffset: int): TableState
  {
    t.(forexRates := t.forexRates + [ForexRow(rate.createdAt, rate.source, rate.pair, rate.rate)],
       forexHourly := UpsertLatest(t.forexHourly, rate, Hour, zoneOffset),
       forexDaily := UpsertLatest(t.forexDaily, rate, Day, zoneOffset))
  }

  /** The row `GetLatestForexRate` returns, if any. */
  function LatestRate(t: TableState, pair: string): Option<ForexRate>
  {
    match LatestIndex(t.forexRates, pair)
    case None => None
    case Some(k) => Some(RateOf(StoredForex(k + 1, t.forexRates[k])))
  }

  class MySqlRepository {
    /** Offset east of UTC of the server's zone, used for day buckets. */
    const zoneOffset: int
    var prices: seq<PriceRow>
    var pricesHourly: map<C2CKey, C2CAggregate>
    var pricesDaily: map<C2CKey, C2CAggregate>
    var merchants: map<(string, string), string>
    var forexRates: seq<ForexRow>
    var forexHourly: map<ForexKey, ForexAggregate>
    var forexDaily: map<ForexKey, ForexAggregate>
    var alertStates: map<AlertKey, AlertRow>

    function State(): TableState
      reads this
    {
      TableState(prices, pricesHourly, pricesDaily, merchants, forexRates, forexHourly, forexDaily, alertStates)
    }

    constructor (zoneOffset: int)
      ensures this.zoneOffset == zoneOffset
      ensures State() == TableState([], map[], map[], map[], [], map[], map[], map[])
    {
      this.zoneOffset := zoneOffset;
      prices, pricesHourly, pricesDaily, merchants := [], map[], map[], map[];
      forexRates, forexHourly, forexDaily, alertStates := [], map[], map[], map[];
    }

    /** `upsertC2CAggregate`: the hourly or daily table keeps the least price;
        any other granularity changes nothing. */
    method UpsertC2CAggregate(p: PricePoint, g: Granularity)
      modifies this
      ensures State() == old(State()).(
                pricesHourly := if g == Hour then UpsertLeast(old(pricesHourly), p, g, zoneOffset) else old(pricesHourly),
                pricesDaily := if g == Day then UpsertLeast(old(pricesDaily), p, g, zoneOffset) else old(pricesDaily))
    {
      match g
      case Hour => pricesHourly := UpsertLeast(pricesHourly, p, g, zoneOffset);
      case Day => pricesDaily := UpsertLeast(pricesDaily, p, g, zoneOffset);
      case _ =>
    }

    /** `SavePricePoints`: nothing for an empty batch; otherwise, in one
        transaction, one raw row per point and an hourly and a daily upsert
        per point. */
    method SavePricePoints(points: seq<PricePoint>, engineFails: bool) returns (err: Option<DbError>)
      modifies this
      ensures err.Some? <==> points != [] && engineFails
      ensures State() == if points == [] || engineFails then old(State()) else SavedPrices(old(State()), points, zoneOffset)
    {
      if |points| == 0 {
        return None;
      }
      if engineFails {
        return Some(EngineError);
      }
      var daos: seq<PriceRow> := [];
      var i := 0;
      while i < |points|
        invariant 0 <= i <= |points|
        invariant daos == RowsOf(points[..i])
      {
        daos := daos + [RowOf(points[i])];
        i := i + 1;
      }
      assert points[..i] == points;
      prices := prices + daos;
      i := 0;
      while i < |points|
        invariant 0 <= i <= |points|
        invariant State() == old(State()).(prices := old(prices) + RowsOf(points),
                                            pricesHourly := UpsertAllLeast(old(pricesHourly), points[..i], Hour, zoneOffset),
                                            pricesDaily := UpsertAllLeast(old(pricesDaily), points[..i], Day, zoneOffset))
      {
        assert points[..i + 1][..i] == points[..i];
        UpsertC2CAggregate(points[i], Hour);
        UpsertC2CAggregate(points[i], Day);
        i := i + 1;
      }
      assert points[..i] == points;
      return None;
    }

    /** `GetPriceHistory`: the raw table with the merchant nickname joined in. */
    method GetPriceHistory(filter: PriceQueryFilter, engineFails: bool) returns (r: Result<seq<PricePoint>, DbError>)
      ensures engineFails ==> r == Failure(EngineError)
      ensures !engineFails ==> r == Success(PointsOf(SelectPrices(prices, filter), merchants))
    {
      if engineFails {
        return Failure(EngineError);
      }
      var rows := SelectPrices(prices, filter);
      var results := JoinNicknames(rows, merchants);
      return Success(results);
    }

    /** `SaveMerchant`: upsert on (exchange, merchant id), updating the nickname. */
    method SaveMerchant(m: Merchant, engineFails: bool) returns (err: Option<DbError>)
      modifies this
      ensures err.Some? <==> engineFails
      ensures State() == if engineFails then old(State()) else MerchantRow(old(State()), m)
    {
      if engineFails {
        return Some(EngineError);
      }
      merchants := merchants[(m.exchange, m.merchantId) := m.nickName];
      return None;
    }

    /** `SaveForexRate`: in one transaction, the raw row and an hourly and a
        daily upsert where the latest write wins. */
    method SaveForexRate(rate: ForexRate, engineFails: bool) returns (err: Option<DbError>)
      modifies this
      ensures err.Some? <==> engineFails
      ensures State() == if engineFails then old(State()) else SavedForex(old(State()), rate, zoneOffset)
    {
      if engineFails {
        return Some(EngineError);
      }
      forexRates := forexRates + [ForexRow(rate.createdAt, rate.source, rate.pair, rate.rate)];
      forexHourly := UpsertLatest(forexHourly, rate, Hour, zoneOffset);
      forexDaily := UpsertLatest(forexDaily, rate, Day, zoneOffset);
      return None;
    }

    /** `GetLatestForexRate`: the newest row of the pair, or no rate (and no
        error) when the pair has no row. */
    method GetLatestForexRate(pair: string, engineFails: bool) returns (r: Result<Option<ForexRate>, DbError>)
      ensures engineFails ==> r == Failure(EngineError)
      ensures !engineFails ==> r == Success(LatestRate(State(), pair))
    {
      if engineFails {
        return Failure(EngineError);
      }
      var best: Option<nat> := None;
      var i := 0;
      while i < |forexRates|
        invariant 0 <= i <= |forexRates|
        invariant best == LatestIndex(forexRates[..i], pair)
      {
        var row := forexRates[i];
        assert forexRates[..i + 1][..i] == forexRates[..i];
        if row.pair == pair && (best.None? || row.createdAt > forexRates[best.value].createdAt) {
          best := Some(i);
        }
        i := i + 1;
      }
      assert forexRates[..i] == forexRates;
      match best
      case None => return Success(None);
      case Some(k) => return Success(Some(RateOf(StoredForex(k + 1, forexRates[k]))));
    }

    /** `GetForexHistory`: the pair's rows inside the window, ascending by time. */
    method GetForexHistory(pair: string, start: int, end: int, engineFails: bool) returns (r: Result<seq<ForexRate>, DbError>)
      ensures engineFails ==> r == Failure(EngineError)
      ensures !engineFails ==> r == Success(RatesOf(SelectForex(forexRates, pair, start, end)))
    {
      if engineFails {
        return Failure(EngineError);
      }
      var rows := SelectForex(forexRates, pair, start, end);
      var results: seq<ForexRate> := [];
      var i := 0;
      while i < |rows|
        invariant 0 <= i <= |rows|
        invariant |results| == i
        invariant forall k :: 0 <= k < i ==> results[k] == RateOf(rows[k])
      {
        results := results + [RateOf(rows[i])];
        i := i + 1;
      }
      assert results == RatesOf(rows);
      return Success(results);
    }

    /** `UpsertAlertState`: keyed by (exchange, side, amount); an existing row
        gets the new trigger price and alert time. */
    method UpsertAlertState(state: AlertState)
      modifies this
      ensures State() == old(State()).(alertStates := old(alertStates)[AlertKey(state.exchange, state.side, state.targetAmount)
                                                                       := AlertRow(state.triggerPrice, state.lastAlertAt)])
    {
      alertStates := alertStates[AlertKey(state.exchange, state.side, state.targetAmount)
                                 := AlertRow(state.triggerPrice, state.lastAlertAt)];
    }

    /** `DeleteAlertState`: removes the row of that key, if any. */
    method DeleteAlertState(exchange: string, side: string, amount: real)
      modifies this
      ensures State() == old(State()).(alertStates := old(alertStates) - {AlertKey(exchange, side, amount)})
    {
      alertStates := alertStates - {AlertKey(exchange, side, amount)};
    }

    /** `GetAlertStates`: every stored alert state. */
    method GetAlertStates() returns (r: map<AlertKey, AlertRow>)
      ensures r == alertStates
    {
      r := alertStates;
    }
  }
}
