/** What the Binance and OKX adapters do with an exchange's answer once it has
    arrived (internal/infrastructure/exchange/binance.go and okx.go): status
    and code checks, the price (and, for OKX, amount-window) filter, the sort
    by side, the re-ranking and the truncation to the single best offer. The
    HTTP request and the JSON decoding are not modelled: an answer is given
    as a value whose numeric fields hold what the Go code's parsing produced
    (0 for unparseable text). */
module Exchange {
  import opened Wrappers
  import opened Domain
  import Sorting

  datatype ExchangeError =
    | HttpStatus(statusCode: int)
    | BinanceApiError(code: string, message: string)
    | OkxApiError(okxCode: int, msg: string)
    | InvalidSide(side: string)

  /** The arguments of `GetTopPrices`, plus the instant `time.Now()` returned. */
  datatype Request = Request(symbol: string, fiat: string, side: string, amount: real, now: int)

  // ----- shared: pay-method text, sort key, ranking -----

  /** Elements separated by single spaces. */
  function JoinSpaces(names: seq<string>): string
  {
    if names == [] then "" else if |names| == 1 then names[0] else names[0] + " " + JoinSpaces(names[1..])
  }

  /** Go's `fmt.Sprintf("%v", names)` for a `[]string`. */
  function FormatStringSlice(names: seq<string>): string
  {
    "[" + JoinSpaces(names) + "]"
  }

  /** The pay-method text: the `%v` rendering with its brackets cut off, or ""
      when there are no methods. */
  function PayMethodsText(names: seq<string>): (s: string)
    ensures s == JoinSpaces(names)
  {
    if |names| > 0 then
      var f := FormatStringSlice(names);
      f[1..|f| - 1]
    else ""
  }

  /** The comparator of `sort.Slice`, as a key sorted ascending: price for a
      user BUY (cheapest first), minus price otherwise (dearest first). */
  function SideKey(side: string): PricePoint -> real
  {
    if side == "BUY" then (p: PricePoint) => p.price else (p: PricePoint) => -p.price
  }

  /** `top` is what sorting `candidates` by side, ranking and truncating to
      one leaves: nothing when there are no candidates, otherwise one best
      candidate re-ranked 1. */
  ghost predicate TopOf(top: seq<PricePoint>, candidates: seq<PricePoint>, side: string)
  {
    && |top| <= 1
    && (top == [] <==> candidates == [])
    && (top != [] ==>
          exists k :: 0 <= k < |candidates| && top[0] == candidates[k].(rank := 1)
                 && forall j :: 0 <= j < |candidates| ==> SideKey(side)(candidates[k]) <= SideKey(side)(candidates[j]))
  }

  /** The loop that rewrites `Rank` after the sort. */
  method AssignRanks(a: array<PricePoint>)
    modifies a
    ensures forall i :: 0 <= i < a.Length ==> a[i] == old(a[i]).(rank := i + 1)
  {
    var i := 0;
    while i < a.Length
      invariant 0 <= i <= a.Length
      invariant forall k :: 0 <= k < i ==> a[k] == old(a[k]).(rank := k + 1)
      invariant forall k :: i <= k < a.Length ==> a[k] == old(a[k])
    {
      a[i] := a[i].(rank := i + 1);
      i := i + 1;
    }
  }

  /** Sort by side, rank 1..n, keep at most the first point. */
  method RankAndTruncate(points: seq<PricePoint>, side: string) returns (top: seq<PricePoint>)
    ensures TopOf(top, points, side)
  {
    var a := new PricePoint[|points|](i requires 0 <= i < |points| => points[i]);
    assert a[..] == points;
    Sorting.SortInPlace(a, SideKey(side));
    ghost var sorted := a[..];
    AssignRanks(a);
    if a.Length > 1 {
      top := a[..1];
    } else {
      top := a[..];
    }
    if top != [] {
      assert sorted[0] in multiset(points);
      ghost var k :| 0 <= k < |points| && points[k] == sorted[0];
      forall j | 0 <= j < |points| ensures SideKey(side)(points[k]) <= SideKey(side)(points[j]) {
        assert points[j] in multiset(sorted);
        var m :| 0 <= m < |sorted| && sorted[m] == points[j];
        if m > 0 {
          assert SideKey(side)(sorted[0]) <= SideKey(side)(sorted[m]);
        }
      }
      assert top[0] == points[k].(rank := 1);
    }
  }

  // ----- Binance -----

  datatype BinanceAd = BinanceAd(
    price: real,
    minSingleTransAmount: real,
    maxSingleTransAmount: real,
    surplusAmount: real,
    tradeMethodNames: seq<string>,
    nickName: string,
    userNo: string)

  datatype BinanceResponse = BinanceResponse(statusCode: int, code: string, message: string, data: seq<BinanceAd>)

  /** The point built from the ad at position `index` of the answer. */
  function BinancePoint(ad: BinanceAd, index: nat, req: Request): PricePoint
  {
    PricePoint(0, req.now, "Binance", req.symbol, req.fiat, req.side, req.amount, index + 1,
               ad.price, ad.nickName, ad.userNo, PayMethodsText(ad.tradeMethodNames),
               ad.minSingleTransAmount, ad.maxSingleTransAmount, ad.surplusAmount)
  }

  /** The points the append loop collects: one per ad with a positive price,
      in answer order. */
  function BinanceCandidates(ads: seq<BinanceAd>, req: Request): seq<PricePoint>
  {
    if ads == [] then []
    else
      var n := |ads| - 1;
      BinanceCandidates(ads[..n], req) + (if ads[n].price > 0.0 then [BinancePoint(ads[n], n, req)] else [])
  }

  /** Every candidate comes from a positive-price ad and carries the exchange,
      side and amount of the request; every positive-price ad gives one. */
  lemma {:induction false} BinanceCandidatesAre(ads: seq<BinanceAd>, req: Request)
    ensures forall p :: p in BinanceCandidates(ads, req) ==>
              exists i :: 0 <= i < |ads| && ads[i].price > 0.0 && p == BinancePoint(ads[i], i, req)
    ensures forall i :: 0 <= i < |ads| && ads[i].price > 0.0 ==> BinancePoint(ads[i], i, req) in BinanceCandidates(ads, req)
  {
    if ads != [] {
      var n := |ads| - 1;
      BinanceCandidatesAre(ads[..n], req);
      forall i | 0 <= i < n ensures ads[..n][i] == ads[i] { }
    }
  }

  method BinanceTopPrices(resp: BinanceResponse, req: Request) returns (r: Result<seq<PricePoint>, ExchangeError>)
    ensures resp.statusCode != 200 ==> r == Failure(HttpStatus(resp.statusCode))
    ensures resp.statusCode == 200 && resp.code != "000000" ==> r == Failure(BinanceApiError(resp.code, resp.message))
    ensures resp.statusCode == 200 && resp.code == "000000" ==>
              r.Success? && TopOf(r.value, BinanceCandidates(resp.data, req), req.side)
  {
    if resp.statusCode != 200 {
      return Failure(HttpStatus(resp.statusCode));
    }
    if resp.code != "000000" {
      return Failure(BinanceApiError(resp.code, resp.message));
    }
    var points := CollectBinance(resp.data, req);
    var top := RankAndTruncate(points, req.side);
    return Success(top);
  }

  /** The append loop of `TopPrices`: one point per positive-price ad. */
  method CollectBinance(data: seq<BinanceAd>, req: Request) returns (points: seq<PricePoint>)
    ensures points == BinanceCandidates(data, req)
  {
    points := [];
    var i := 0;
    while i < |data|
      invariant 0 <= i <= |data|
      invariant points == BinanceCandidates(data[..i], req)
    {
      var ad := data[i];
      if ad.price > 0.0 {
        points := points + [BinancePoint(ad, i, req)];
      }
      assert data[..i + 1][..i] == data[..i];
      i := i + 1;
    }
    assert data[..i] == data;
  }

  /** The surviving Binance offer: rank 1, exchange "Binance", the requested
      side and amount, the price of some positive-price ad, and for a user
      BUY the lowest positive price of the answer (for SELL the highest). */
  lemma BinanceTopIsBest(ads: seq<BinanceAd>, req: Request, top: seq<PricePoint>)
    requires TopOf(top, BinanceCandidates(ads, req), req.side)
    ensures top == [] <==> forall i :: 0 <= i < |ads| ==> ads[i].price <= 0.0
    ensures top != [] ==>
              && top[0].rank == 1 && top[0].exchange == "Binance"
              && top[0].side == req.side && top[0].targetAmount == req.amount
              && (exists i :: 0 <= i < |ads| && ads[i].price > 0.0 && top[0].price == ads[i].price)
              && (req.side == "BUY" ==> forall i :: 0 <= i < |ads| && ads[i].price > 0.0 ==> top[0].price <= ads[i].price)
              && (req.side != "BUY" ==> forall i :: 0 <= i < |ads| && ads[i].price > 0.0 ==> top[0].price >= ads[i].price)
  {
    var cs := BinanceCandidates(ads, req);
    BinanceCandidatesAre(ads, req);
    if top != [] {
      var k :| 0 <= k < |cs| && top[0] == cs[k].(rank := 1)
             && forall j :: 0 <= j < |cs| ==> SideKey(req.side)(cs[k]) <= SideKey(req.side)(cs[j]);
      assert cs[k] in cs;
      forall i | 0 <= i < |ads| && ads[i].price > 0.0
        ensures SideKey(req.side)(cs[k]) <= SideKey(req.side)(BinancePoint(ads[i], i, req))
      {
        var p := BinancePoint(ads[i], i, req);
        assert p in cs;
        var j :| 0 <= j < |cs| && cs[j] == p;
      }
    }
  }

  // ----- OKX -----

  datatype OkxAd = OkxAd(
    price: real,
    availableAmount: real,
    quoteMinAmountPerOrder: real,
    quoteMaxAmountPerOrder: real,
    nickName: string,
    merchantId: string,
    paymentMethods: seq<string>)

  datatype OkxResponse = OkxResponse(statusCode: int, code: int, msg: string, sell: seq<OkxAd>, buy: seq<OkxAd>)

  /** The advertiser side to ask OKX for: a user BUY takes sell ads, a user
      SELL takes buy ads. */
  function OkxSide(side: string): Result<string, ExchangeError>
  {
    if side == "BUY" then Success("sell") else if side == "SELL" then Success("buy") else Failure(InvalidSide(side))
  }

  /** Whether the append loop keeps an ad: positive price and, when an amount
      is requested, the amount inside the ad's per-order window. */
  predicate OkxKeeps(ad: OkxAd, amount: real)
  {
    ad.price > 0.0 && (amount > 0.0 ==> ad.quoteMinAmountPerOrder <= amount <= ad.quoteMaxAmountPerOrder)
  }

  function OkxPoint(ad: OkxAd, req: Request): PricePoint
  {
    PricePoint(0, req.now, "OKX", req.symbol, req.fiat, req.side, req.amount, 0,
               ad.price, ad.nickName, ad.merchantId, PayMethodsText(ad.paymentMethods),
               ad.quoteMinAmountPerOrder, ad.quoteMaxAmountPerOrder, ad.availableAmount)
  }

  function OkxCandidates(ads: seq<OkxAd>, req: Request): seq<PricePoint>
  {
    if ads == [] then []
    else
      var n := |ads| - 1;
      OkxCandidates(ads[..n], req) + (if OkxKeeps(ads[n], req.amount) then [OkxPoint(ads[n], req)] else [])
  }

  lemma {:induction false} OkxCandidatesAre(ads: seq<OkxAd>, req: Request)
    ensures forall p :: p in OkxCandidates(ads, req) ==>
              exists i :: 0 <= i < |ads| && OkxKeeps(ads[i], req.amount) && p == OkxPoint(ads[i], req)
    ensures forall i :: 0 <= i < |ads| && OkxKeeps(ads[i], req.amount) ==> OkxPoint(ads[i], req) in OkxCandidates(ads, req)
  {
    if ads != [] {
      var n := |ads| - 1;
      OkxCandidatesAre(ads[..n], req);
      forall i | 0 <= i < n ensures ads[..n][i] == ads[i] { }
    }
  }

  method OkxTopPrices(resp: OkxResponse, req: Request) returns (r: Result<seq<PricePoint>, ExchangeError>)
    ensures req.side != "BUY" && req.side != "SELL" ==> r == Failure(InvalidSide(req.side))
    ensures (req.side == "BUY" || req.side == "SELL") && resp.statusCode != 200 ==> r == Failure(HttpStatus(resp.statusCode))
    ensures (req.side == "BUY" || req.side == "SELL") && resp.statusCode == 200 && resp.code != 0 ==>
              r == Failure(OkxApiError(resp.code, resp.msg))
    ensures req.side == "BUY" && resp.statusCode == 200 && resp.code == 0 ==>
              r.Success? && TopOf(r.value, OkxCandidates(resp.sell, req), req.side)
    ensures req.side == "SELL" && resp.statusCode == 200 && resp.code == 0 ==>
              r.Success? && TopOf(r.value, OkxCandidates(resp.buy, req), req.side)
  {
    var okxSide := OkxSide(req.side);
    if okxSide.Failure? {
      return Failure(okxSide.error);
    }
    if resp.statusCode != 200 {
      return Failure(HttpStatus(resp.statusCode));
    }
    if resp.code != 0 {
      return Failure(OkxApiError(resp.code, resp.msg));
    }
    var ads := if okxSide.value == "sell" then resp.sell else resp.buy;
    var points := CollectOkx(ads, req);
    var top := RankAndTruncate(points, req.side);
    return Success(top);
  }

  /** The append loop of `TopPrices`: a positive-price ad is skipped when a
      positive requested amount falls outside its per-order window. */
  method CollectOkx(ads: seq<OkxAd>, req: Request) returns (points: seq<PricePoint>)
    ensures points == OkxCandidates(ads, req)
  {
    points := [];
    var i := 0;
    while i < |ads|
      invariant 0 <= i <= |ads|
      invariant points == OkxCandidates(ads[..i], req)
    {
      var ad := ads[i];
      assert ads[..i + 1][..i] == ads[..i];
      i := i + 1;
      if ad.price > 0.0 {
        var point := OkxPoint(ad, req);
        if req.amount > 0.0 {
          if req.amount < ad.quoteMinAmountPerOrder || req.amount > ad.quoteMaxAmountPerOrder {
            continue;
          }
        }
        points := points + [point];
      }
    }
    assert ads[..i] == ads;
  }

  /** The surviving OKX offer: rank 1, exchange "OKX", from an ad that passes
      the price and amount-window filter, and for a user BUY the lowest price
      among those ads (for SELL the highest). */
  lemma OkxTopIsBest(ads: seq<OkxAd>, req: Request, top: seq<PricePoint>)
    requires TopOf(top, OkxCandidates(ads, req), req.side)
    ensures top == [] <==> forall i :: 0 <= i < |ads| ==> !OkxKeeps(ads[i], req.amount)
    ensures top != [] ==>
              && top[0].rank == 1 && top[0].exchange == "OKX"
              && top[0].side == req.side && top[0].targetAmount == req.amount
              && (exists i :: 0 <= i < |ads| && OkxKeeps(ads[i], req.amount) && top[0].price == ads[i].price)
              && (req.side == "BUY" ==> forall i :: 0 <= i < |ads| && OkxKeeps(ads[i], req.amount) ==> top[0].price <= ads[i].price)
              && (req.side != "BUY" ==> forall i :: 0 <= i < |ads| && OkxKeeps(ads[i], req.amount) ==> top[0].price >= ads[i].price)
  {
    var cs := OkxCandidates(ads, req);
    OkxCandidatesAre(ads, req);
    if top != [] {
      var k :| 0 <= k < |cs| && top[0] == cs[k].(rank := 1)
             && forall j :: 0 <= j < |cs| ==> SideKey(req.side)(cs[k]) <= SideKey(req.side)(cs[j]);
      assert cs[k] in cs;
      forall i | 0 <= i < |ads| && OkxKeeps(ads[i], req.amount)
        ensures SideKey(req.side)(cs[k]) <= SideKey(req.side)(OkxPoint(ads[i], req))
      {
        var p := OkxPoint(ads[i], req);
        assert p in cs;
        var j :| 0 <= j < |cs| && cs[j] == p;
      }
    }
  }
}
