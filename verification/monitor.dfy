/** The monitoring service (internal/service/monitor_service.go): the forex
    refresh, the C2C check over the configured exchanges and amount tiers,
    the dynamic alert threshold and the per-service health board.

    Every step is first a pure function over a value (`StatusStep`,
    `AlertStep`, `AmountStep`), then the class's methods are proved to
    change their fields exactly as those functions say. The notifier is an
    outbox: each e-mail the service would send is appended to a sequence.
    Exchange answers, the clock, the random jitter and database failures are
    inputs. */
module Monitor {
  import opened Wrappers
  import opened Domain
  import opened Numbers
  import opened Repository

  const ForexServiceName: string := "Forex (Yahoo)"
  const ForexPair: string := "USDCNY"
  /** Minimum gap between two initial alerts of the same market, in seconds. */
  const AlertCooldown: int := 1800
  const DefaultC2CMinutes: int := 3
  const MaxJitter: int := 60

  /** `getNextC2CDuration`, in seconds, for a jitter drawn from 0..60. */
  function NextC2CDelay(cfg: MonitorConfig, jitter: int): (d: int)
    requires 0 <= jitter <= MaxJitter
    ensures cfg.c2cIntervalMinutes > 0 ==> cfg.c2cIntervalMinutes * 60 <= d <= cfg.c2cIntervalMinutes * 60 + MaxJitter
    ensures cfg.c2cIntervalMinutes <= 0 ==> DefaultC2CMinutes * 60 <= d <= DefaultC2CMinutes * 60 + MaxJitter
    ensures d >= 60
  {
    var baseMinutes := if cfg.c2cIntervalMinutes <= 0 then DefaultC2CMinutes else cfg.c2cIntervalMinutes;
    baseMinutes * 60 + jitter
  }

  // ----- ASCII case-insensitive comparison -----

  function LowerAscii(c: char): char
  {
    if 'A' <= c <= 'Z' then (c as int + 32) as char else c
  }

  /** `strings.EqualFold` restricted to ASCII letters. */
  predicate EqualFold(a: string, b: string)
  {
    |a| == |b| && forall i :: 0 <= i < |a| ==> LowerAscii(a[i]) == LowerAscii(b[i])
  }

  lemma EqualFoldIsEquivalence(a: string, b: string, c: string)
    ensures EqualFold(a, a)
    ensures EqualFold(a, b) ==> EqualFold(b, a)
    ensures EqualFold(a, b) && EqualFold(b, c) ==> EqualFold(a, c)
  {
  }

  // ----- service health -----

  /** An "service down" e-mail. */
  datatype ErrorNotice = ErrorNotice(service: string, message: string)

  /** The status map and the outbox of service-down e-mails. */
  datatype StatusBoard = StatusBoard(statuses: map<string, ServiceStatus>, notices: seq<ErrorNotice>)

  predicate IsDown(statuses: map<string, ServiceStatus>, name: string)
  {
    name in statuses && statuses[name].status == "Error"
  }

  /** `updateServiceStatus`: the service's entry (created on first use)
      records the outcome and the check time; an e-mail goes out only on a
      transition into "Error". */
  function StatusStep(b: StatusBoard, name: string, err: Option<string>, now: int): (r: StatusBoard)
    ensures r.statuses.Keys == b.statuses.Keys + {name}
    ensures forall n :: n in b.statuses && n != name ==> r.statuses[n] == b.statuses[n]
    ensures r.statuses[name].lastCheck == now
    ensures name !in b.statuses ==> r.statuses[name].name == name
    ensures IsDown(r.statuses, name) <==> err.Some?
    ensures err.None? ==> r.statuses[name].status == "OK" && r.statuses[name].message == ""
    ensures err.Some? ==> r.statuses[name].message == err.value
    ensures r.notices == b.notices + (if err.Some? && !IsDown(b.statuses, name) then [ErrorNotice(name, err.value)] else [])
  {
    var prev := if name in b.statuses then b.statuses[name] else ServiceStatus(name, "", "", ZeroTime);
    var status := if err.Some? then prev.(status := "Error", message := err.value, lastCheck := now)
                  else prev.(status := "OK", message := "", lastCheck := now);
    var fires := err.Some? && !IsDown(b.statuses, name);
    StatusBoard(b.statuses[name := status], if fires then b.notices + [ErrorNotice(name, err.value)] else b.notices)
  }

  /** A run of outcomes of one service. */
  function RunStatus(b: StatusBoard, name: string, outcomes: seq<Option<string>>, now: int): StatusBoard
  {
    if outcomes == [] then b
    else StatusStep(RunStatus(b, name, outcomes[..|outcomes| - 1], now), name, outcomes[|outcomes| - 1], now)
  }

  /** Number of outages in a run: failures not preceded by a failure (the
      first one counts when the service was not already down). */
  function Outages(wasDown: bool, outcomes: seq<Option<string>>): nat
  {
    if outcomes == [] then 0
    else
      var n := |outcomes| - 1;
      var downBefore := if n == 0 then wasDown else outcomes[n - 1].Some?;
      Outages(wasDown, outcomes[..n]) + (if outcomes[n].Some? && !downBefore then 1 else 0)
  }

  /** One e-mail per outage: a service that keeps failing is reported once,
      and again only after it has recovered. */
  lemma {:induction false} OneNoticePerOutage(b: StatusBoard, name: string, outcomes: seq<Option<string>>, now: int)
    ensures |RunStatus(b, name, outcomes, now).notices| == |b.notices| + Outages(IsDown(b.statuses, name), outcomes)
    ensures outcomes != [] ==> (IsDown(RunStatus(b, name, outcomes, now).statuses, name) <==> outcomes[|outcomes| - 1].Some?)
  {
    if outcomes != [] {
      var n := |outcomes| - 1;
      OneNoticePerOutage(b, name, outcomes[..n], now);
      if n > 0 {
        assert outcomes[..n][n - 1] == outcomes[n - 1];
      }
    }
  }

  // ----- price alerts -----

  datatype AlertKind = Initial | Lower

  /** An opportunity e-mail: the market key, the kind, the price, the
      previously recorded low (zero when there was none) and the spread. */
  datatype PriceNotice = PriceNotice(key: string, kind: AlertKind, price: real, previous: real, spread: real)

  /** The alert caches and the outbox of opportunity e-mails. */
  datatype AlertMemo = AlertMemo(cache: map<string, int>, triggered: map<string, real>, notices: seq<PriceNotice>)

  /** The market key `exchange-side-amount`, the amount printed with `%.0f`. */
  function MarketKey(exchange: string, side: string, amount: real): string
  {
    exchange + "-" + side + "-" + FormatFixed0(amount)
  }

  /** How far below the forex rate the price is, in percent. */
  function Spread(forex: real, price: real): real
    requires forex != 0.0
  {
    (forex - price) / forex * 100.0
  }

  /** `checkAlert`'s decision: once a market has alerted, only a strictly
      lower price alerts again (no cooldown); otherwise the spread must reach
      the threshold and the last alert must be 30 minutes old. */
  function Decide(m: AlertMemo, p: PricePoint, forex: real, threshold: real, now: int): Option<AlertKind>
    requires forex != 0.0
  {
    var key := MarketKey(p.exchange, p.side, p.targetAmount);
    if p.price <= 0.0 then None
    else if key in m.triggered then
      if p.price < m.triggered[key] then Some(Lower) else None
    else if Spread(forex, p.price) >= threshold then
      if key in m.cache && now - m.cache[key] < AlertCooldown then None else Some(Initial)
    else None
  }

  /** The caches after `checkAlert`: an alert records the time and makes the
      price the market's new low. */
  function AlertStep(m: AlertMemo, p: PricePoint, forex: real, threshold: real, now: int): AlertMemo
    requires forex != 0.0
  {
    var key := MarketKey(p.exchange, p.side, p.targetAmount);
    match Decide(m, p, forex, threshold, now)
    case None => m
    case Some(kind) =>
      var previous := if key in m.triggered then m.triggered[key] else 0.0;
      AlertMemo(m.cache[key := now], m.triggered[key := p.price],
                m.notices + [PriceNotice(key, kind, p.price, previous, Spread(forex, p.price))])
  }

  /** The dynamic threshold only moves down: an alert never raises or drops
      a recorded low, and a market that alerts afterwards has a recorded low
      equal to the alerted price. */
  lemma AlertStepLowersThreshold(m: AlertMemo, p: PricePoint, forex: real, threshold: real, now: int)
    requires forex != 0.0
    ensures var r := AlertStep(m, p, forex, threshold, now);
            && m.triggered.Keys <= r.triggered.Keys
            && (forall k :: k in m.triggered ==> r.triggered[k] <= m.triggered[k])
            && (Decide(m, p, forex, threshold, now).Some? <==> |r.notices| == |m.notices| + 1)
            && (Decide(m, p, forex, threshold, now).None? ==> r == m)
            && (Decide(m, p, forex, threshold, now).Some? ==>
                  var key := MarketKey(p.exchange, p.side, p.targetAmount);
                  && key in r.triggered && r.triggered[key] == p.price && p.price > 0.0
                  && key in r.cache && r.cache[key] == now
                  && r.notices[|m.notices|].key == key && r.notices[|m.notices|].kind == Decide(m, p, forex, threshold, now).value)
  {
  }

  /** The same offer never alerts twice in a row, whatever the forex rate,
      threshold or time of the second check. */
  lemma NoRepeatAlert(m: AlertMemo, p: PricePoint, forex: real, threshold: real, now: int,
                      forex2: real, threshold2: real, now2: int)
    requires forex != 0.0 && forex2 != 0.0
    requires Decide(m, p, forex, threshold, now).Some?
    ensures Decide(AlertStep(m, p, forex, threshold, now), p, forex2, threshold2, now2).None?
  {
  }

  /** After a reset the market is back on the spread threshold, subject to
      the cooldown of its last alert. */
  lemma ResetRearmsThreshold(m: AlertMemo, p: PricePoint, forex: real, threshold: real, now: int)
    requires forex != 0.0 && p.price > 0.0
    ensures var key := MarketKey(p.exchange, p.side, p.targetAmount);
            Decide(m.(triggered := m.triggered - {key}), p, forex, threshold, now) ==
              if Spread(forex, p.price) >= threshold && !(key in m.cache && now - m.cache[key] < AlertCooldown)
              then Some(Initial) else None
  {
  }

  /** An initial alert fires exactly when the price is positive, the market
      has no recorded low, the spread reaches the threshold and the last
      alert is at least 30 minutes old; a lower alert fires exactly when the
      market has a recorded low and the price is positive and strictly below
      it, whatever the spread and the time of the last alert. */
  lemma AlertNeedsOpportunity(m: AlertMemo, p: PricePoint, forex: real, threshold: real, now: int)
    requires forex != 0.0
    ensures var key := MarketKey(p.exchange, p.side, p.targetAmount);
            && (Decide(m, p, forex, threshold, now) == Some(Initial) <==>
                  p.price > 0.0 && Spread(forex, p.price) >= threshold && key !in m.triggered
                  && (key in m.cache ==> now - m.cache[key] >= AlertCooldown))
            && (Decide(m, p, forex, threshold, now) == Some(Lower) <==>
                  p.price > 0.0 && key in m.triggered && p.price < m.triggered[key])
  {
  }

  // ----- one C2C check -----

  /** Everything a C2C check changes. */
  datatype MonitorState = MonitorState(board: StatusBoard, memo: AlertMemo, tables: TableState)

  /** What a check reads but does not change: the forex rate and threshold of
      the service, the zone of the database, the clock, and whether the
      database fails its statements during this check. */
  datatype CheckEnv = CheckEnv(forex: real, threshold: real, zoneOffset: int, now: int, storageFails: bool)

  function MerchantOf(p: PricePoint): Merchant
  {
    Merchant(p.exchange, p.merchantId, p.merchant)
  }

  /** The merchant upserts for the points that name a merchant. */
  function SaveMerchants(t: TableState, ps: seq<PricePoint>, fails: bool): TableState
  {
    if ps == [] then t
    else
      var n := |ps| - 1;
      var t' := SaveMerchants(t, ps[..n], fails);
      if ps[n].merchantId != "" && !fails then MerchantRow(t', MerchantOf(ps[n])) else t'
  }

  /** The tables after the merchant upserts and `SavePricePoints` of a batch. */
  function Recorded(t: TableState, ps: seq<PricePoint>, zoneOffset: int, fails: bool): TableState
  {
    var t' := SaveMerchants(t, ps, fails);
    if ps == [] || fails then t' else SavedPrices(t', ps, zoneOffset)
  }

  /** One amount tier of one exchange: the fetch outcome goes to the health
      board; a non-empty answer is stored and its rank-1 point is checked for
      an alert. */
  function AmountStep(w: MonitorState, name: string, amount: real,
                      fetch: (string, real) -> Result<seq<PricePoint>, string>, env: CheckEnv): MonitorState
    requires env.forex != 0.0
  {
    match fetch(name, amount)
    case Failure(e) => w.(board := StatusStep(w.board, name, Some(e), env.now))
    case Success(ps) =>
      var w1 := w.(board := StatusStep(w.board, name, None, env.now));
      if ps == [] then w1
      else w1.(tables := Recorded(w1.tables, ps, env.zoneOffset, env.storageFails),
               memo := AlertStep(w1.memo, ps[0], env.forex, env.threshold, env.now))
  }

  function RunAmounts(w: MonitorState, name: string, amounts: seq<real>,
                      fetch: (string, real) -> Result<seq<PricePoint>, string>, env: CheckEnv): MonitorState
    requires env.forex != 0.0
  {
    if amounts == [] then w
    else AmountStep(RunAmounts(w, name, amounts[..|amounts| - 1], fetch, env), name, amounts[|amounts| - 1], fetch, env)
  }

  predicate Configured(name: string, exchanges: seq<string>)
  {
    exists i :: 0 <= i < |exchanges| && EqualFold(name, exchanges[i])
  }

  /** The registered exchanges in iteration order; the ones not configured
      (case-insensitively) are skipped. */
  function RunExchanges(w: MonitorState, names: seq<string>, exchanges: seq<string>, amounts: seq<real>,
                        fetch: (string, real) -> Result<seq<PricePoint>, string>, env: CheckEnv): MonitorState
    requires env.forex != 0.0
  {
    if names == [] then w
    else
      var n := |names| - 1;
      var w' := RunExchanges(w, names[..n], exchanges, amounts, fetch, env);
      if Configured(names[n], exchanges) then RunAmounts(w', names[n], amounts, fetch, env) else w'
  }

  /** What a check never undoes. */
  predicate Grows(w: MonitorState, r: MonitorState)
  {
    && w.tables.prices <= r.tables.prices
    && w.board.notices <= r.board.notices
    && w.memo.notices <= r.memo.notices
    && w.board.statuses.Keys <= r.board.statuses.Keys
    && w.memo.triggered.Keys <= r.memo.triggered.Keys
    && (forall k :: k in w.memo.triggered ==> r.memo.triggered[k] <= w.memo.triggered[k])
    && r.tables.forexRates == w.tables.forexRates
    && r.tables.alertStates == w.tables.alertStates
  }

  lemma GrowsTransitive(a: MonitorState, b: MonitorState, c: MonitorState)
    requires Grows(a, b) && Grows(b, c)
    ensures Grows(a, c)
  {
  }

  lemma {:induction false} SaveMerchantsKeepsRest(t: TableState, ps: seq<PricePoint>, fails: bool)
    ensures SaveMerchants(t, ps, fails) == t.(merchants := SaveMerchants(t, ps, fails).merchants)
  {
    if ps != [] {
      SaveMerchantsKeepsRest(t, ps[..|ps| - 1], fails);
    }
  }

  lemma AmountStepGrows(w: MonitorState, name: string, amount: real,
                        fetch: (string, real) -> Result<seq<PricePoint>, string>, env: CheckEnv)
    requires env.forex != 0.0
    ensures Grows(w, AmountStep(w, name, amount, fetch, env))
  {
    match fetch(name, amount)
    case Failure(_) =>
    case Success(ps) =>
      if ps != [] {
        var w1 := w.(board := StatusStep(w.board, name, None, env.now));
        SaveMerchantsKeepsRest(w1.tables, ps, env.storageFails);
        AlertStepLowersThreshold(w1.memo, ps[0], env.forex, env.threshold, env.now);
      }
  }

  /** A whole check only appends stored prices and e-mails, never forgets a
      service or a triggered market, never raises a market's recorded low,
      and leaves the forex and alert-state tables alone. */
  lemma {:induction false} RunExchangesGrows(w: MonitorState, names: seq<string>, exchanges: seq<string>, amounts: seq<real>,
                                             fetch: (string, real) -> Result<seq<PricePoint>, string>, env: CheckEnv)
    requires env.forex != 0.0
    ensures Grows(w, RunExchanges(w, names, exchanges, amounts, fetch, env))
  {
    if names != [] {
      var n := |names| - 1;
      var w' := RunExchanges(w, names[..n], exchanges, amounts, fetch, env);
      RunExchangesGrows(w, names[..n], exchanges, amounts, fetch, env);
      if Configured(names[n], exchanges) {
        RunAmountsGrows(w', names[n], amounts, fetch, env);
        GrowsTransitive(w, w', RunAmounts(w', names[n], amounts, fetch, env));
      }
    }
  }

  lemma {:induction false} RunAmountsGrows(w: MonitorState, name: string, amounts: seq<real>,
                                           fetch: (string, real) -> Result<seq<PricePoint>, string>, env: CheckEnv)
    requires env.forex != 0.0
    ensures Grows(w, RunAmounts(w, name, amounts, fetch, env))
  {
    if amounts != [] {
      var n := |amounts| - 1;
      var w' := RunAmounts(w, name, amounts[..n], fetch, env);
      RunAmountsGrows(w, name, amounts[..n], fetch, env);
      AmountStepGrows(w', name, amounts[n], fetch, env);
      GrowsTransitive(w, w', AmountStep(w', name, amounts[n], fetch, env));
    }
  }

  /** An exchange that is not configured is never fetched: the check is the
      same as if it were not registered. */
  lemma {:induction false} UnconfiguredSkipped(w: MonitorState, names: seq<string>, extra: string, exchanges: seq<string>,
                                               amounts: seq<real>, fetch: (string, real) -> Result<seq<PricePoint>, string>,
                                               env: CheckEnv)
    requires env.forex != 0.0
    requires !Configured(extra, exchanges)
    ensures RunExchanges(w, names + [extra], exchanges, amounts, fetch, env) == RunExchanges(w, names, exchanges, amounts, fetch, env)
  {
    assert (names + [extra])[..|names|] == names;
  }

  // ----- the service -----

  class MonitorService {
    var cfg: MonitorConfig
    const repo: MySqlRepository
    var lastForex: real
    var alertCache: map<string, int>
    var triggeredLowPrices: map<string, real>
    var serviceStatus: map<string, ServiceStatus>
    /** Outbox of service-down e-mails. */
    var errorNotices: seq<ErrorNotice>
    /** Outbox of opportunity e-mails. */
    var priceNotices: seq<PriceNotice>

    function Board(): StatusBoard
      reads this
    {
      StatusBoard(serviceStatus, errorNotices)
    }

    function Memo(): AlertMemo
      reads this
    {
      AlertMemo(alertCache, triggeredLowPrices, priceNotices)
    }

    function State(): MonitorState
      reads this, repo
    {
      MonitorState(Board(), Memo(), repo.State())
    }

    function Env(now: int, storageFails: bool): CheckEnv
      reads this
    {
      CheckEnv(lastForex, cfg.alertThresholdPercent, repo.zoneOffset, now, storageFails)
    }

    constructor (cfg: MonitorConfig, repo: MySqlRepository)
      ensures this.cfg == cfg && this.repo == repo && lastForex == 0.0
      ensures Board() == StatusBoard(map[], []) && Memo() == AlertMemo(map[], map[], [])
    {
      this.cfg := cfg;
      this.repo := repo;
      lastForex := 0.0;
      alertCache, triggeredLowPrices, serviceStatus := map[], map[], map[];
      errorNotices, priceNotices := [], [];
    }

    method UpdateServiceStatus(name: string, err: Option<string>, now: int)
      modifies this
      ensures cfg == old(cfg) && lastForex == old(lastForex) && Memo() == old(Memo())
      ensures Board() == StatusStep(old(Board()), name, err, now)
    {
      var status := if name in serviceStatus then serviceStatus[name] else ServiceStatus(name, "", "", ZeroTime);
      status := status.(lastCheck := now);
      if err.Some? {
        if status.status != "Error" {
          status := status.(status := "Error", message := err.value);
          errorNotices := errorNotices + [ErrorNotice(name, err.value)];
        } else {
          status := status.(message := err.value);
        }
      } else {
        status := status.(status := "OK", message := "");
      }
      serviceStatus := serviceStatus[name := status];
    }

    /** `checkAlert`; the caller has made sure a forex rate is known. */
    method CheckAlert(p: PricePoint, now: int)
      requires lastForex != 0.0
      modifies this
      ensures cfg == old(cfg) && lastForex == old(lastForex) && Board() == old(Board())
      ensures Memo() == AlertStep(old(Memo()), p, lastForex, cfg.alertThresholdPercent, now)
    {
      if p.price <= 0.0 {
        return;
      }
      var spread := (lastForex - p.price) / lastForex * 100.0;
      var key := MarketKey(p.exchange, p.side, p.targetAmount);
      var isTriggered := key in triggeredLowPrices;
      var triggeredPrice := if isTriggered then triggeredLowPrices[key] else 0.0;
      var shouldAlert := false;
      var kind := Initial;
      if isTriggered {
        if p.price < triggeredPrice {
          shouldAlert := true;
          kind := Lower;
        }
      } else {
        if spread >= cfg.alertThresholdPercent {
          if key in alertCache && now - alertCache[key] < AlertCooldown {
            return;
          }
          shouldAlert := true;
        }
      }
      if shouldAlert {
        priceNotices := priceNotices + [PriceNotice(key, kind, p.price, triggeredPrice, spread)];
        alertCache := alertCache[key := now];
        triggeredLowPrices := triggeredLowPrices[key := p.price];
      }
    }

    /** The merchant loop and `SavePricePoints` of one answer; failures are
        only logged. */
    method RecordPrices(ps: seq<PricePoint>, storageFails: bool)
      modifies repo
      ensures repo.State() == Recorded(old(repo.State()), ps, repo.zoneOffset, storageFails)
    {
      var i := 0;
      while i < |ps|
        invariant 0 <= i <= |ps|
        invariant repo.State() == SaveMerchants(old(repo.State()), ps[..i], storageFails)
      {
        var p := ps[i];
        assert ps[..i + 1][..i] == ps[..i];
        if p.merchantId != "" {
          var _ := repo.SaveMerchant(MerchantOf(p), storageFails);
        }
        i := i + 1;
      }
      assert ps[..i] == ps;
      var _ := repo.SavePricePoints(ps, storageFails);
    }

    /** Linear search of the configured exchange names. */
    method IsConfigured(name: string) returns (found: bool)
      ensures found <==> Configured(name, cfg.exchanges)
    {
      found := false;
      var i := 0;
      while i < |cfg.exchanges|
        invariant 0 <= i <= |cfg.exchanges|
        invariant !found ==> forall j :: 0 <= j < i ==> !EqualFold(name, cfg.exchanges[j])
        invariant found ==> Configured(name, cfg.exchanges)
      {
        if EqualFold(name, cfg.exchanges[i]) {
          found := true;
          break;
        }
        i := i + 1;
      }
    }

    /** One pass of the amount-tier loop of `checkC2C`: fetch, health
        update, storage and the alert check of the rank-1 point. */
    method CheckAmount(name: string, amount: real, fetch: (string, real) -> Result<seq<PricePoint>, string>,
                       now: int, storageFails: bool)
      requires lastForex != 0.0
      modifies this, repo
      ensures cfg == old(cfg) && lastForex == old(lastForex)
      ensures State() == AmountStep(old(State()), name, amount, fetch, Env(now, storageFails))
    {
      var prices := fetch(name, amount);
      if prices.Failure? {
        UpdateServiceStatus(name, Some(prices.error), now);
        return;
      }
      UpdateServiceStatus(name, None, now);
      if |prices.value| == 0 {
        return;
      }
      ghost var stepped := State();
      RecordPrices(prices.value, storageFails);
      assert repo.State() == Recorded(stepped.tables, prices.value, repo.zoneOffset, storageFails);
      CheckAlert(prices.value[0], now);
    }

    /** The amount-tier loop of `checkC2C` for one exchange. */
    method CheckExchange(name: string, fetch: (string, real) -> Result<seq<PricePoint>, string>,
                         now: int, storageFails: bool)
      requires lastForex != 0.0
      modifies this, repo
      ensures cfg == old(cfg) && lastForex == old(lastForex)
      ensures State() == RunAmounts(old(State()), name, cfg.targetAmounts, fetch, Env(now, storageFails))
    {
      var amounts := cfg.targetAmounts;
      ghost var env := Env(now, storageFails);
      var i := 0;
      while i < |amounts|
        invariant 0 <= i <= |amounts|
        invariant cfg == old(cfg) && lastForex == old(lastForex) && Env(now, storageFails) == env
        invariant State() == RunAmounts(old(State()), name, amounts[..i], fetch, env)
      {
        ghost var prefix := amounts[..i + 1];
        assert prefix[..i] == amounts[..i];
        assert RunAmounts(old(State()), name, prefix, fetch, env)
            == AmountStep(RunAmounts(old(State()), name, amounts[..i], fetch, env), name, amounts[i], fetch, env);
        CheckAmount(name, amounts[i], fetch, now, storageFails);
        i := i + 1;
      }
      assert amounts[..i] == amounts;
    }

    /** `checkC2C`: nothing before a forex rate is known; otherwise every
        registered and configured exchange, every amount tier. */
    method CheckC2C(names: seq<string>, fetch: (string, real) -> Result<seq<PricePoint>, string>,
                    now: int, storageFails: bool)
      modifies this, repo
      ensures cfg == old(cfg) && lastForex == old(lastForex)
      ensures old(lastForex) == 0.0 ==> State() == old(State())
      ensures old(lastForex) != 0.0 ==>
                State() == RunExchanges(old(State()), names, cfg.exchanges, cfg.targetAmounts, fetch, Env(now, storageFails))
    {
      if lastForex == 0.0 {
        return;
      }
      var i := 0;
      while i < |names|
        invariant 0 <= i <= |names|
        invariant cfg == old(cfg) && lastForex == old(lastForex)
        invariant State() == RunExchanges(old(State()), names[..i], cfg.exchanges, cfg.targetAmounts, fetch, Env(now, storageFails))
      {
        var name := names[i];
        assert names[..i + 1][..i] == names[..i];
        i := i + 1;
        var found := IsConfigured(name);
        if !found {
          continue;
        }
        CheckExchange(name, fetch, now, storageFails);
      }
      assert names[..i] == names;
    }

    /** `updateForex`: a fetched rate becomes the current one and is stored;
        on a failed fetch the newest stored USDCNY rate, if any, is used. */
    method UpdateForex(fetched: Result<real, string>, now: int, storageFails: bool)
      modifies this, repo
      ensures Board() == StatusStep(old(Board()), ForexServiceName, if fetched.Failure? then Some(fetched.error) else None, now)
      ensures Memo() == old(Memo()) && cfg == old(cfg)
      ensures fetched.Success? ==>
                && lastForex == fetched.value
                && repo.State() == if storageFails then old(repo.State())
                                   else SavedForex(old(repo.State()), ForexRate(0, now, "Yahoo", ForexPair, fetched.value), repo.zoneOffset)
      ensures fetched.Failure? ==>
                && repo.State() == old(repo.State())
                && lastForex == if !storageFails && LatestRate(old(repo.State()), ForexPair).Some?
                                then LatestRate(old(repo.State()), ForexPair).value.rate else old(lastForex)
    {
      if fetched.Failure? {
        UpdateServiceStatus(ForexServiceName, Some(fetched.error), now);
        var latest := repo.GetLatestForexRate(ForexPair, storageFails);
        if latest.Success? && latest.value.Some? {
          lastForex := latest.value.value.rate;
        }
        return;
      }
      UpdateServiceStatus(ForexServiceName, None, now);
      lastForex := fetched.value;
      var _ := repo.SaveForexRate(ForexRate(0, now, "Yahoo", ForexPair, fetched.value), storageFails);
    }

    /** `ResetAlertState`: forgets the market's recorded low only; its last
        alert time stays, so the cooldown still applies. */
    method ResetAlertState(exchange: string, side: string, amount: real)
      modifies this
      ensures Memo() == old(Memo()).(triggered := old(triggeredLowPrices) - {MarketKey(exchange, side, amount)})
      ensures Board() == old(Board()) && cfg == old(cfg) && lastForex == old(lastForex)
    {
      triggeredLowPrices := triggeredLowPrices - {MarketKey(exchange, side, amount)};
    }

    method GetAlertStates() returns (r: map<string, real>)
      ensures r == triggeredLowPrices
    {
      r := triggeredLowPrices;
    }

    method GetServiceStatuses() returns (r: map<string, ServiceStatus>)
      ensures r == serviceStatus
    {
      r := serviceStatus;
    }

    method GetPriceHistory(filter: PriceQueryFilter, engineFails: bool) returns (r: Result<seq<PricePoint>, DbError>)
      ensures engineFails ==> r == Failure(EngineError)
      ensures !engineFails ==> r == Success(PointsOf(SelectPrices(repo.prices, filter), repo.merchants))
    {
      r := repo.GetPriceHistory(filter, engineFails);
    }

    method GetForexHistory(pair: string, start: int, end: int, engineFails: bool) returns (r: Result<seq<ForexRate>, DbError>)
      ensures engineFails ==> r == Failure(EngineError)
      ensures !engineFails ==> r == Success(RatesOf(SelectForex(repo.forexRates, pair, start, end)))
    {
      r := repo.GetForexHistory(pair, start, end, engineFails);
    }

    method GetConfig() returns (c: MonitorConfig)
      ensures c == cfg
    {
      c := cfg;
    }

    method UpdateConfig(newCfg: MonitorConfig)
      modifies this
      ensures cfg == newCfg
      ensures lastForex == old(lastForex) && Board() == old(Board()) && Memo() == old(Memo())
    {
      cfg := newCfg;
    }
  }
}
