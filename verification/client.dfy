/** The dashboard page (frontend/js/app.js): the view state the page keeps
    between events, the reconciliation of the configuration it loads, the
    editing of the amount list, the chart series and tooltip, the alert-key
    parsing of the reset button and the health indicator.

    Server answers, the user's confirmation and the text typed into inputs
    are parameters of the event methods; the DOM and the chart library are
    reduced to the fields they display; requests the page sends are recorded
    in outboxes. */
module Client {
  import opened Wrappers
  import opened Numbers
  import Sorting

  // ----- JavaScript values -----

  /** A decoded JSON value, plus `undefined` and `NaN`. */
  datatype JsValue =
    | Undefined
    | Null
    | Bool(b: bool)
    | Num(n: real)
    | NaN
    | Str(s: string)
    | Arr(items: seq<JsValue>)
    | Obj(fields: map<string, JsValue>)

  /** JavaScript truthiness: `undefined`, `null`, `false`, `0`, `NaN` and the
      empty string are falsy. */
  predicate Truthy(v: JsValue)
  {
    match v
    case Undefined => false
    case Null => false
    case NaN => false
    case Bool(b) => b
    case Num(n) => n != 0.0
    case Str(s) => s != ""
    case Arr(_) => true
    case Obj(_) => true
  }

  /** `a || b` */
  function Or(a: JsValue, b: JsValue): JsValue
  {
    if Truthy(a) then a else b
  }

  /** `v.name` on an object; other values have none of the names used here. */
  function Get(v: JsValue, name: string): JsValue
  {
    if v.Obj? && name in v.fields then v.fields[name] else Undefined
  }

  /** `parseInt` turned into a value: a number, or `NaN`. */
  function IntValue(text: string): JsValue
  {
    match JsParseInt(text)
    case Some(n) => Num(n as real)
    case None => NaN
  }

  function Nums(xs: seq<real>): (r: seq<JsValue>)
    ensures |r| == |xs|
    ensures forall i :: 0 <= i < |xs| ==> r[i] == Num(xs[i])
  {
    seq(|xs|, i requires 0 <= i < |xs| => Num(xs[i]))
  }

  /** The numbers of an array of numbers. */
  function NumbersOf(v: JsValue): Option<seq<real>>
  {
    if !v.Arr? then None
    else if forall i :: 0 <= i < |v.items| ==> v.items[i].Num? then
      Some(seq(|v.items|, i requires 0 <= i < |v.items| && v.items[i].Num? => v.items[i].n))
    else None
  }

  lemma NumbersOfNums(xs: seq<real>)
    ensures NumbersOf(Arr(Nums(xs))) == Some(xs)
  {
    var v := Arr(Nums(xs));
    assert forall i :: 0 <= i < |v.items| ==> v.items[i].Num?;
    var ys := seq(|v.items|, i requires 0 <= i < |v.items| && v.items[i].Num? => v.items[i].n);
    assert ys == xs;
  }

  // ----- configuration -----

  /** `state.config`: the intervals are whatever values the page last
      obtained; the amount list is a list of numbers. */
  datatype ClientConfig = ClientConfig(c2cIntervalMinutes: JsValue, forexIntervalHours: JsValue, targetAmounts: seq<real>)

  const InitialConfig: ClientConfig := ClientConfig(Num(3.0), Num(1.0), [])

  /** `loadConfig`'s mapping: read `data.data` when it is truthy, else the
      body itself; each field takes the PascalCase value, else the snake_case
      one, else the default 3 / 1 / []. A `null` body throws, which the page
      swallows. */
  function Reconcile(data: JsValue): Option<ClientConfig>
  {
    if data.Null? || data.Undefined? then None
    else
      var config := Or(Get(data, "data"), data);
      var amounts := Or(Or(Get(config, "TargetAmounts"), Get(config, "target_amounts")), Arr([]));
      match NumbersOf(amounts)
      case None => None
      case Some(list) =>
        Some(ClientConfig(Or(Or(Get(config, "C2CIntervalMinutes"), Get(config, "c2c_interval_minutes")), Num(3.0)),
                          Or(Or(Get(config, "ForexIntervalHours"), Get(config, "forex_interval_hours")), Num(1.0)),
                          list))
  }

  /** Field by field: a truthy PascalCase value wins, then a truthy
      snake_case value, then the default; so both intervals always come out
      truthy. A truthy `data` envelope is read instead of the body. */
  lemma ReconcilePrecedence(data: JsValue)
    requires data.Obj? && !Truthy(Get(data, "data"))
    requires Reconcile(data).Some?
    ensures var c := Reconcile(data).value;
            && c.c2cIntervalMinutes == (if Truthy(Get(data, "C2CIntervalMinutes")) then Get(data, "C2CIntervalMinutes")
                                        else if Truthy(Get(data, "c2c_interval_minutes")) then Get(data, "c2c_interval_minutes")
                                        else Num(3.0))
            && c.forexIntervalHours == (if Truthy(Get(data, "ForexIntervalHours")) then Get(data, "ForexIntervalHours")
                                        else if Truthy(Get(data, "forex_interval_hours")) then Get(data, "forex_interval_hours")
                                        else Num(1.0))
            && Truthy(c.c2cIntervalMinutes) && Truthy(c.forexIntervalHours)
            && (Truthy(Get(data, "TargetAmounts")) ==> NumbersOf(Get(data, "TargetAmounts")) == Some(c.targetAmounts))
            && (!Truthy(Get(data, "TargetAmounts")) && Truthy(Get(data, "target_amounts")) ==>
                  NumbersOf(Get(data, "target_amounts")) == Some(c.targetAmounts))
            && (!Truthy(Get(data, "TargetAmounts")) && !Truthy(Get(data, "target_amounts")) ==> c.targetAmounts == [])
  {
  }

  lemma ReconcileEnvelope(inner: JsValue, outer: map<string, JsValue>)
    requires Truthy(inner) && !Truthy(Get(inner, "data")) && "data" in outer && outer["data"] == inner
    ensures Reconcile(Obj(outer)) == Reconcile(inner)
  {
  }

  /** The object `saveConfig` posts and keeps. */
  function SavedConfigJson(c: ClientConfig): JsValue
  {
    Obj(map["c2c_interval_minutes" := c.c2cIntervalMinutes,
            "forex_interval_hours" := c.forexIntervalHours,
            "target_amounts" := Arr(Nums(c.targetAmounts))])
  }

  /** Reconciling the object `saveConfig` builds gives it back exactly when
      both intervals are truthy (a `0` or `NaN` interval falls through to its
      default); the amount list always survives. */
  lemma SavedConfigReconciles(c: ClientConfig)
    ensures Reconcile(SavedConfigJson(c)).Some?
    ensures Reconcile(SavedConfigJson(c)).value.targetAmounts == c.targetAmounts
    ensures Reconcile(SavedConfigJson(c)) == Some(c) <==> Truthy(c.c2cIntervalMinutes) && Truthy(c.forexIntervalHours)
  {
    var data := SavedConfigJson(c);
    assert Get(data, "data") == Undefined;
    assert Get(data, "TargetAmounts") == Undefined;
    assert Get(data, "C2CIntervalMinutes") == Undefined;
    assert Get(data, "ForexIntervalHours") == Undefined;
    NumbersOfNums(c.targetAmounts);
  }

  // ----- the amount list -----

  predicate NoDuplicates(xs: seq<real>)
  {
    forall i, j :: 0 <= i < j < |xs| ==> xs[i] != xs[j]
  }

  /** `addAmountTag`'s list: the typed integer is appended when it parses, is
      not negative and is not listed yet. */
  function AddAmount(amounts: seq<real>, input: string): seq<real>
  {
    match JsParseInt(input)
    case Some(v) => if v >= 0 && (v as real) !in amounts then amounts + [v as real] else amounts
    case None => amounts
  }

  lemma AddAmountSpec(amounts: seq<real>, input: string)
    ensures var r := AddAmount(amounts, input);
            && (r == amounts || (JsParseInt(input).Some? && JsParseInt(input).value >= 0
                                 && (JsParseInt(input).value as real) !in amounts
                                 && r == amounts + [JsParseInt(input).value as real]))
            && (r != amounts <==> JsParseInt(input).Some? && JsParseInt(input).value >= 0
                                  && (JsParseInt(input).value as real) !in amounts)
            && (NoDuplicates(amounts) ==> NoDuplicates(r))
  {
  }

  /** `removeAmountTag`'s filter. */
  function RemoveAmount(amounts: seq<real>, amt: real): seq<real>
  {
    if amounts == [] then []
    else (if amounts[0] == amt then [] else [amounts[0]]) + RemoveAmount(amounts[1..], amt)
  }

  /** Removal drops every occurrence and keeps every other amount, in order;
      removing an absent amount changes nothing. */
  lemma {:induction false} RemoveAmountSpec(amounts: seq<real>, amt: real)
    ensures amt !in RemoveAmount(amounts, amt)
    ensures forall x :: x in RemoveAmount(amounts, amt) <==> x in amounts && x != amt
    ensures amt !in amounts ==> RemoveAmount(amounts, amt) == amounts
    ensures |RemoveAmount(amounts, amt)| == |amounts| - multiset(amounts)[amt]
    ensures NoDuplicates(amounts) ==> NoDuplicates(RemoveAmount(amounts, amt))
  {
    if amounts != [] {
      RemoveAmountSpec(amounts[1..], amt);
      assert amounts == [amounts[0]] + amounts[1..];
      assert multiset(amounts) == multiset{amounts[0]} + multiset(amounts[1..]);
      if NoDuplicates(amounts) {
        assert amounts[0] !in amounts[1..];
      }
    }
  }

  function AmountKey(x: real): real { x }

  /** `parseInt` of a number's decimal text: the integer part, toward zero. */
  function Truncate(x: real): (r: real)
    ensures r == r.Floor as real
    ensures 0.0 <= x ==> r <= x < r + 1.0
    ensures x < 0.0 ==> r - 1.0 < x <= r
  {
    var k := if x >= 0.0 then x.Floor else -((-x).Floor);
    assert (k as real).Floor == k;
    k as real
  }

  /** The tags and selector options: the amounts ascending. */
  function SortedAmounts(amounts: seq<real>): (r: seq<real>)
    ensures multiset(r) == multiset(amounts)
    ensures forall i, j :: 0 <= i < j < |r| ==> r[i] <= r[j]
  {
    var r := Sorting.SortBy(amounts, AmountKey);
    assert forall i, j :: 0 <= i < j < |r| ==> AmountKey(r[i]) <= AmountKey(r[j]);
    r
  }

  /** The amount `renderConfigUI` leaves selected: the current one while it
      is listed, else the first stored amount, else none changes. */
  function AmountAfterRender(current: Option<real>, amounts: seq<real>): Option<real>
  {
    if amounts != [] && !(current.Some? && current.value in amounts) then Some(amounts[0]) else current
  }

  /** After rendering, a non-empty list always has its selection among its
      amounts; a listed selection is never moved, and a replaced one is the
      first stored amount (which need not be the smallest). */
  lemma AmountAfterRenderListed(current: Option<real>, amounts: seq<real>)
    ensures amounts != [] ==> AmountAfterRender(current, amounts).Some? && AmountAfterRender(current, amounts).value in amounts
    ensures current.Some? && current.value in amounts ==> AmountAfterRender(current, amounts) == current
    ensures amounts == [] ==> AmountAfterRender(current, amounts) == current
    ensures AmountAfterRender(current, amounts) != current ==> AmountAfterRender(current, amounts) == Some(amounts[0])
  {
  }

  // ----- chart series -----

  /** One element of a history list as the page reads it. */
  datatype SeriesItem = SeriesItem(t: real, v: JsValue, merchant: JsValue, minAmount: JsValue, maxAmount: JsValue,
                                   payMethods: JsValue, availableAmount: JsValue)

  /** A history list: absent (`null` or missing) or present. */
  datatype RawList = Missing | Items(items: seq<SeriesItem>)

  datatype HistoryData = HistoryData(forex: RawList, binance: RawList, okx: RawList)

  /** `[date, price, merchant, min, max, pay, available]`, the date in ms. */
  datatype ChartPoint = ChartPoint(timeMs: real, value: JsValue, merchant: JsValue, minAmount: JsValue,
                                   maxAmount: JsValue, payMethods: JsValue, availableAmount: JsValue)

  /** `[date, value]`. */
  datatype ForexPoint = ForexPoint(timeMs: real, value: JsValue)

  function ChartPointOf(item: SeriesItem): ChartPoint
  {
    ChartPoint(item.t * 1000.0, item.v, item.merchant, item.minAmount, item.maxAmount, item.payMethods, item.availableAmount)
  }

  /** `processData`: an absent list is empty; otherwise one point per item,
      in order, the time in milliseconds and the fields copied by position. */
  function ProcessData(list: RawList): (r: seq<ChartPoint>)
    ensures list.Missing? ==> r == []
    ensures list.Items? ==>
              && |r| == |list.items|
              && forall i :: 0 <= i < |r| ==> r[i].timeMs == list.items[i].t * 1000.0 && r[i] == ChartPointOf(list.items[i])
  {
    match list
    case Missing => []
    case Items(items) => seq(|items|, i requires 0 <= i < |items| => ChartPointOf(items[i]))
  }

  /** The forex series keeps only the time and the value. */
  function ForexData(list: RawList): (r: seq<ForexPoint>)
    ensures list.Missing? ==> r == []
    ensures list.Items? ==>
              && |r| == |list.items|
              && forall i :: 0 <= i < |r| ==> r[i] == ForexPoint(list.items[i].t * 1000.0, list.items[i].v)
  {
    match list
    case Missing => []
    case Items(items) => seq(|items|, i requires 0 <= i < |items| => ForexPoint(items[i].t * 1000.0, items[i].v))
  }

  // ----- tooltip -----

  const ForexSeriesName: string := "USD/CNY 汇率"

  /** One hovered series: its name and the fields of its point. */
  datatype TooltipItem = TooltipItem(seriesName: string, value: JsValue, merchant: JsValue, minAmount: JsValue,
                                     maxAmount: JsValue, payMethods: JsValue, availableAmount: JsValue)

  datatype Details = Details(spread: Option<real>, merchant: JsValue, minAmount: JsValue, maxAmount: JsValue,
                             payMethods: JsValue, availableAmount: JsValue)

  datatype TooltipLine =
    | ForexLine(value: JsValue)
    | PriceLine(seriesName: string, value: JsValue, details: Option<Details>)

  /** The value of the last forex item, `null` when none is hovered. */
  function ForexValue(items: seq<TooltipItem>): JsValue
  {
    if items == [] then Null
    else
      var n := |items| - 1;
      if items[n].seriesName == ForexSeriesName then items[n].value else ForexValue(items[..n])
  }

  /** The spread, shown only when both the forex value and the price are
      truthy; the model computes it for numbers. */
  function SpreadOf(forexVal: JsValue, price: JsValue): Option<real>
  {
    if Truthy(forexVal) && forexVal.Num? && price.Num? then
      Some((forexVal.n - price.n) / forexVal.n * 100.0)
    else None
  }

  function LineOf(item: TooltipItem, forexVal: JsValue): TooltipLine
  {
    if item.seriesName == ForexSeriesName then ForexLine(item.value)
    else if !Truthy(item.value) then PriceLine(item.seriesName, item.value, None)
    else PriceLine(item.seriesName, item.value,
                   Some(Details(SpreadOf(forexVal, item.value), Or(item.merchant, Str("Unknown")), Or(item.minAmount, Num(0.0)),
                                Or(item.maxAmount, Num(0.0)), Or(item.payMethods, Str("-")), Or(item.availableAmount, Num(0.0)))))
  }

  /** The tooltip `formatter`: one line per hovered series. */
  function TooltipLines(items: seq<TooltipItem>): (lines: seq<TooltipLine>)
    ensures |lines| == |items|
  {
    var forexVal := ForexValue(items);
    seq(|items|, i requires 0 <= i < |items| => LineOf(items[i], forexVal))
  }

  /** A spread appears only for a price line with a truthy price while a
      non-zero forex value is hovered, and it is (forex − price)/forex·100;
      missing details fall back to 'Unknown', 0 and '-'. */
  lemma {:induction false} TooltipSpreadGuarded(items: seq<TooltipItem>)
    ensures forall i :: 0 <= i < |items| ==>
              var line := TooltipLines(items)[i];
              && (line.ForexLine? <==> items[i].seriesName == ForexSeriesName)
              && (line.PriceLine? ==> (line.details.Some? <==> Truthy(items[i].value)))
              && (line.PriceLine? && line.details.Some? && line.details.value.spread.Some? ==>
                    exists k :: 0 <= k < |items| && items[k].seriesName == ForexSeriesName && items[k].value.Num?
                      && items[k].value.n != 0.0 && items[i].value.Num?
                      && line.details.value.spread.value == (items[k].value.n - items[i].value.n) / items[k].value.n * 100.0)
              && (line.PriceLine? && line.details.Some? ==>
                    && (!Truthy(items[i].merchant) ==> line.details.value.merchant == Str("Unknown"))
                    && (!Truthy(items[i].minAmount) ==> line.details.value.minAmount == Num(0.0))
                    && (!Truthy(items[i].maxAmount) ==> line.details.value.maxAmount == Num(0.0))
                    && (!Truthy(items[i].payMethods) ==> line.details.value.payMethods == Str("-"))
                    && (!Truthy(items[i].availableAmount) ==> line.details.value.availableAmount == Num(0.0)))
  {
    ForexValueIsHovered(items);
  }

  lemma {:induction false} ForexValueIsHovered(items: seq<TooltipItem>)
    ensures ForexValue(items) == Null ||
            exists k :: 0 <= k < |items| && items[k].seriesName == ForexSeriesName && ForexValue(items) == items[k].value
  {
    if items != [] {
      var n := |items| - 1;
      ForexValueIsHovered(items[..n]);
      if items[n].seriesName != ForexSeriesName && ForexValue(items[..n]) != Null {
        var k :| 0 <= k < n && items[..n][k].seriesName == ForexSeriesName && ForexValue(items[..n]) == items[..n][k].value;
        assert items[k] == items[..n][k];
      }
    }
  }

  // ----- alert key -----

  /** `String.prototype.split` on a one-character separator. */
  function Split(s: string, sep: char): (parts: seq<string>)
    ensures |parts| >= 1
    ensures forall i :: 0 <= i < |parts| ==> sep !in parts[i]
  {
    if s == [] then [""]
    else
      var rest := Split(s[1..], sep);
      if s[0] == sep then [""] + rest else [[s[0]] + rest[0]] + rest[1..]
  }

  function Join(parts: seq<string>, sep: char): string
    requires |parts| >= 1
  {
    if |parts| == 1 then parts[0] else parts[0] + [sep] + Join(parts[1..], sep)
  }

  /** Splitting loses nothing: joining the parts gives the text back. */
  lemma {:induction false} SplitJoin(s: string, sep: char)
    ensures Join(Split(s, sep), sep) == s
  {
    if s != [] {
      SplitJoin(s[1..], sep);
      var rest := Split(s[1..], sep);
      if s[0] != sep {
        if |rest| == 1 {
          assert Split(s, sep) == [[s[0]] + rest[0]];
        } else {
          assert Split(s, sep)[1..] == rest[1..];
          assert s == [s[0]] + s[1..];
        }
      }
    }
  }

  /** A separator-free prefix is glued to the first part of the rest. */
  lemma {:induction false} SplitPrefix(a: string, b: string, sep: char)
    requires sep !in a
    ensures Split(a + b, sep) == [a + Split(b, sep)[0]] + Split(b, sep)[1..]
  {
    if a != [] {
      SplitPrefix(a[1..], b, sep);
      assert (a + b)[1..] == a[1..] + b;
      assert (a + b)[0] == a[0];
      assert [a[0]] + (a[1..] + Split(b, sep)[0]) == a + Split(b, sep)[0];
    } else {
      assert a + b == b;
      assert a + Split(b, sep)[0] == Split(b, sep)[0];
      assert [a + Split(b, sep)[0]] + Split(b, sep)[1..] == Split(b, sep);
    }
  }

  /** A separator-free prefix followed by the separator is a part of its own. */
  lemma SplitAtSeparator(a: string, rest: string, sep: char)
    requires sep !in a
    ensures Split(a + [sep] + rest, sep) == [a] + Split(rest, sep)
  {
    SplitPrefix(a, [sep] + rest, sep);
    assert a + ([sep] + rest) == a + [sep] + rest;
    assert Split([sep] + rest, sep) == [""] + Split(rest, sep);
    assert a + "" == a;
  }

  /** A text made of separator-free parts splits back into those parts. */
  lemma SplitThree(a: string, b: string, c: string, sep: char)
    requires sep !in a && sep !in b && sep !in c
    ensures Split(a + [sep] + b + [sep] + c, sep) == [a, b, c]
  {
    SplitPrefix(c, [], sep);
    assert c + [] == c;
    SplitAtSeparator(b, c, sep);
    SplitAtSeparator(a, b + [sep] + c, sep);
    assert a + [sep] + (b + [sep] + c) == a + [sep] + b + [sep] + c;
  }

  datatype ResetPayload = ResetPayload(exchange: string, side: string, amount: Option<real>)

  /** `resetAlert`'s parsing: exactly three `-`-separated parts, the amount
      through `parseFloat` (`None` standing for `NaN`). */
  function ParseAlertKey(key: string): (r: Option<ResetPayload>)
    ensures r.Some? <==> |Split(key, '-')| == 3
    ensures r.Some? ==> key == r.value.exchange + "-" + r.value.side + "-" + Split(key, '-')[2]
  {
    var parts := Split(key, '-');
    if |parts| != 3 then None
    else
      SplitJoin(key, '-');
      assert parts[1..][1..] == parts[2..] && Join(parts[2..], '-') == parts[2];
      assert Join(parts, '-') == parts[0] + "-" + parts[1] + "-" + parts[2];
      Some(ResetPayload(parts[0], parts[1], JsParseFloat(parts[2])))
  }

  /** The active-threshold table: a placeholder row, or one row per entry. */
  datatype AlertTable = NoThresholds | Rows(entries: seq<(string, real)>)

  function AlertTableOf(states: Option<seq<(string, real)>>): (t: AlertTable)
    ensures t.NoThresholds? <==> states.None? || states.value == []
    ensures t.Rows? ==> t.entries == states.value
  {
    if states.None? || states.value == [] then NoThresholds else Rows(states.value)
  }

  // ----- health indicator -----

  /** One service's entry of the status map. */
  datatype StatusEntry = StatusEntry(status: string, message: string, lastCheck: int)

  datatype IndicatorKind = Loading | Healthy | Failing

  datatype Indicator = Indicator(kind: IndicatorKind, text: string)

  /** One line of the details tooltip. */
  datatype StatusDetail = StatusDetail(name: string, operational: bool, message: string, lastCheck: int)

  function DetailOf(entry: (string, StatusEntry)): StatusDetail
  {
    StatusDetail(entry.0, entry.1.status == "OK", entry.1.message, entry.1.lastCheck)
  }

  /** What the indicator and the details tooltip show for a status map:
      "Waiting for data..." and no details while there is no data;
      otherwise one detail per service, in order, and a healthy indicator
      exactly when every service says "OK". */
  predicate HealthShown(statusMap: Option<seq<(string, StatusEntry)>>, ind: Indicator, details: seq<StatusDetail>)
  {
    if statusMap.None? || statusMap.value == [] then
      ind == Indicator(Loading, "Waiting for data...") && details == []
    else
      && ind == (if forall i :: 0 <= i < |statusMap.value| ==> statusMap.value[i].1.status == "OK"
                 then Indicator(Healthy, "All Systems Operational")
                 else Indicator(Failing, "System Issues Detected"))
      && |details| == |statusMap.value|
      && forall i :: 0 <= i < |details| ==> details[i] == DetailOf(statusMap.value[i])
  }

  /** `updateSystemStatusUI`'s aggregation loop. */
  method HealthSummary(statusMap: Option<seq<(string, StatusEntry)>>) returns (ind: Indicator, details: seq<StatusDetail>)
    ensures HealthShown(statusMap, ind, details)
    ensures ind.kind == Loading <==> statusMap.None? || statusMap.value == []
    ensures ind.kind == Healthy <==>
              statusMap.Some? && statusMap.value != [] && forall i :: 0 <= i < |statusMap.value| ==> statusMap.value[i].1.status == "OK"
  {
    if statusMap.None? || |statusMap.value| == 0 {
      return Indicator(Loading, "Waiting for data..."), [];
    }
    var entries := statusMap.value;
    var allOk := true;
    details := [];
    var i := 0;
    while i < |entries|
      invariant 0 <= i <= |entries|
      invariant allOk <==> forall j :: 0 <= j < i ==> entries[j].1.status == "OK"
      invariant |details| == i
      invariant forall j :: 0 <= j < i ==> details[j] == DetailOf(entries[j])
    {
      if entries[i].1.status != "OK" {
        allOk := false;
      }
      details := details + [DetailOf(entries[i])];
      i := i + 1;
    }
    if allOk {
      ind := Indicator(Healthy, "All Systems Operational");
    } else {
      ind := Indicator(Failing, "System Issues Detected");
    }
  }

  // ----- the page -----

  /** The outcome of a request: an ok answer, a non-ok answer, or no answer. */
  datatype Outcome = OkResponse | ErrorResponse | NetworkError

  /** A history request of `loadChartData`. */
  datatype ChartRequest = ChartRequest(amount: real, range: string)

  class ViewState {
    var config: ClientConfig
    var currentAmount: Option<real>
    var currentRange: string
    /** The amounts shown as tags and selector options. */
    var shownAmounts: seq<real>
    /** The two interval inputs of the settings tab. */
    var c2cField: JsValue
    var forexField: JsValue
    var newAmountText: string
    var saveStatus: string
    var chartLoading: bool
    var binanceSeries: seq<ChartPoint>
    var okxSeries: seq<ChartPoint>
    var forexSeries: seq<ForexPoint>
    var alertTable: AlertTable
    var indicator: Indicator
    var statusDetails: seq<StatusDetail>
    var popups: seq<string>
    /** Requests sent, in order. */
    var chartRequests: seq<ChartRequest>
    var configPosts: seq<JsValue>
    var resetRequests: seq<ResetPayload>
    var alertLoads: nat
    var statusLoads: nat

    constructor ()
      ensures config == InitialConfig && currentAmount == None && currentRange == "1d"
      ensures chartRequests == [] && configPosts == [] && resetRequests == [] && alertLoads == 0 && statusLoads == 0
    {
      config := InitialConfig;
      currentAmount := None;
      currentRange := "1d";
      shownAmounts := [];
      c2cField, forexField := Num(3.0), Num(1.0);
      newAmountText := "";
      saveStatus := "";
      chartLoading := false;
      binanceSeries, okxSeries, forexSeries := [], [], [];
      alertTable := NoThresholds;
      indicator := Indicator(Loading, "");
      statusDetails := [];
      popups := [];
      chartRequests, configPosts, resetRequests := [], [], [];
      alertLoads, statusLoads := 0, 0;
    }

    /** `loadChartData`: nothing until an amount is chosen. */
    method LoadChartData()
      modifies this`chartLoading, this`chartRequests
      ensures currentAmount.None? ==> chartRequests == old(chartRequests) && chartLoading == old(chartLoading)
      ensures currentAmount.Some? ==>
                chartRequests == old(chartRequests) + [ChartRequest(currentAmount.value, currentRange)] && chartLoading
    {
      if currentAmount.None? {
        return;
      }
      chartLoading := true;
      chartRequests := chartRequests + [ChartRequest(currentAmount.value, currentRange)];
    }

    /** `updateChart`: the three series from a history answer. */
    method ShowHistory(data: HistoryData)
      modifies this`binanceSeries, this`okxSeries, this`forexSeries, this`chartLoading
      ensures binanceSeries == ProcessData(data.binance) && okxSeries == ProcessData(data.okx)
      ensures forexSeries == ForexData(data.forex) && !chartLoading
    {
      binanceSeries := ProcessData(data.binance);
      okxSeries := ProcessData(data.okx);
      forexSeries := ForexData(data.forex);
      chartLoading := false;
    }

    /** A failed history request only hides the loading mask. */
    method HistoryFailed()
      modifies this`chartLoading
      ensures !chartLoading
    {
      chartLoading := false;
    }

    /** The last step of `renderConfigUI`: a current amount that is not
        listed is replaced by the first stored amount, which reloads the
        chart once. */
    method KeepSelectionListed()
      modifies this`currentAmount, this`chartLoading, this`chartRequests
      ensures currentAmount == AmountAfterRender(old(currentAmount), config.targetAmounts)
      ensures chartRequests == old(chartRequests) +
                (if currentAmount != old(currentAmount) then [ChartRequest(currentAmount.value, currentRange)] else [])
      ensures chartLoading == (currentAmount != old(currentAmount) || old(chartLoading))
    {
      var listed := currentAmount.Some? && currentAmount.value in config.targetAmounts;
      if !listed && |config.targetAmounts| > 0 {
        currentAmount := Some(config.targetAmounts[0]);
        LoadChartData();
      }
    }

    /** `renderConfigUI`: fills the interval inputs, shows the amounts
        ascending and keeps the selection listed. */
    method RenderConfigUI()
      modifies this`c2cField, this`forexField, this`shownAmounts, this`currentAmount, this`chartLoading, this`chartRequests
      ensures c2cField == config.c2cIntervalMinutes && forexField == config.forexIntervalHours
      ensures shownAmounts == SortedAmounts(config.targetAmounts)
      ensures currentAmount == AmountAfterRender(old(currentAmount), config.targetAmounts)
      ensures chartRequests == old(chartRequests) +
                (if currentAmount != old(currentAmount) then [ChartRequest(currentAmount.value, currentRange)] else [])
      ensures chartLoading == (currentAmount != old(currentAmount) || old(chartLoading))
    {
      c2cField, forexField := config.c2cIntervalMinutes, config.forexIntervalHours;
      shownAmounts := SortedAmounts(config.targetAmounts);
      KeepSelectionListed();
    }

    /** `loadConfig`: an ok answer replaces the configuration and re-renders;
        anything else leaves the page as it was. */
    method LoadConfig(response: Option<JsValue>)
      modifies this`config, this`c2cField, this`forexField, this`shownAmounts, this`currentAmount, this`chartLoading, this`chartRequests
      ensures response.None? || Reconcile(response.value).None? ==> unchanged(this)
      ensures response.Some? && Reconcile(response.value).Some? ==>
                && config == Reconcile(response.value).value
                && c2cField == config.c2cIntervalMinutes && forexField == config.forexIntervalHours
                && shownAmounts == SortedAmounts(config.targetAmounts)
      ensures response.Some? && Reconcile(response.value).Some? ==>
                && currentAmount == AmountAfterRender(old(currentAmount), config.targetAmounts)
                && chartRequests == old(chartRequests) +
                     (if currentAmount != old(currentAmount) then [ChartRequest(currentAmount.value, currentRange)] else [])
                && chartLoading == (currentAmount != old(currentAmount) || old(chartLoading))
    {
      if response.None? {
        return;
      }
      var reconciled := Reconcile(response.value);
      if reconciled.None? {
        return;
      }
      config := reconciled.value;
      RenderConfigUI();
    }

    /** The start-up sequence: load the configuration, then pick the first
        amount and load the chart, then the alert table and the health
        status. On a fresh page whose configuration lists amounts this sends
        the same chart request twice, once from `renderConfigUI` and once
        here. */
    method Start(response: Option<JsValue>)
      modifies this`config, this`c2cField, this`forexField, this`shownAmounts, this`currentAmount, this`chartLoading, this`chartRequests
      modifies this`alertLoads, this`statusLoads
      ensures config == if response.Some? && Reconcile(response.value).Some? then Reconcile(response.value).value else old(config)
      ensures response.Some? && Reconcile(response.value).Some? ==>
                && c2cField == config.c2cIntervalMinutes && forexField == config.forexIntervalHours
                && shownAmounts == SortedAmounts(config.targetAmounts)
      ensures response.None? || Reconcile(response.value).None? ==>
                c2cField == old(c2cField) && forexField == old(forexField) && shownAmounts == old(shownAmounts)
      ensures currentAmount == if config.targetAmounts != [] then Some(config.targetAmounts[0]) else old(currentAmount)
      ensures var rendered := AmountAfterRender(old(currentAmount), config.targetAmounts);
              chartRequests == old(chartRequests)
                + (if response.Some? && Reconcile(response.value).Some? && rendered != old(currentAmount)
                   then [ChartRequest(rendered.value, currentRange)] else [])
                + (if config.targetAmounts != [] then [ChartRequest(config.targetAmounts[0], currentRange)] else [])
      ensures response.Some? && Reconcile(response.value).Some? && old(currentAmount).None? && config.targetAmounts != [] ==>
                chartRequests == old(chartRequests) + [ChartRequest(config.targetAmounts[0], currentRange),
                                                       ChartRequest(config.targetAmounts[0], currentRange)]
      ensures chartLoading == (config.targetAmounts != [] || old(chartLoading))
      ensures alertLoads == old(alertLoads) + 1 && statusLoads == old(statusLoads) + 1
    {
      ghost var loaded := response.Some? && Reconcile(response.value).Some?;
      LoadConfig(response);
      ghost var rendered := AmountAfterRender(old(currentAmount), config.targetAmounts);
      ghost var afterLoad := chartRequests;
      assert afterLoad == old(chartRequests)
               + (if loaded && rendered != old(currentAmount) then [ChartRequest(rendered.value, currentRange)] else []);
      assert chartLoading == ((loaded && rendered != old(currentAmount)) || old(chartLoading));
      assert loaded && rendered != old(currentAmount) ==> config.targetAmounts != [];
      if |config.targetAmounts| > 0 {
        currentAmount := Some(config.targetAmounts[0]);
        LoadChartData();
      }
      alertLoads := alertLoads + 1;
      statusLoads := statusLoads + 1;
    }

    /** The amount selector; its options are the shown amounts, read back
        through `parseInt`, which drops a fractional part. */
    method SelectAmount(amount: real)
      requires amount in shownAmounts
      modifies this`currentAmount, this`chartLoading, this`chartRequests
      ensures currentAmount == Some(Truncate(amount))
      ensures chartRequests == old(chartRequests) + [ChartRequest(Truncate(amount), currentRange)]
      ensures chartLoading
    {
      currentAmount := Some(Truncate(amount));
      LoadChartData();
    }

    /** The refresh button: chart, alert table and health status. */
    method Refresh()
      modifies this`chartLoading, this`chartRequests, this`alertLoads, this`statusLoads
      ensures chartRequests == old(chartRequests) + (if currentAmount.Some? then [ChartRequest(currentAmount.value, currentRange)] else [])
      ensures chartLoading == (currentAmount.Some? || old(chartLoading))
      ensures alertLoads == old(alertLoads) + 1 && statusLoads == old(statusLoads) + 1
    {
      LoadChartData();
      alertLoads := alertLoads + 1;
      statusLoads := statusLoads + 1;
    }

    /** Switching tabs reloads the alert table and the health status only
        when the dashboard is shown. */
    method ShowTab(target: string)
      modifies this`alertLoads, this`statusLoads
      ensures target == "dashboard" ==> alertLoads == old(alertLoads) + 1 && statusLoads == old(statusLoads) + 1
      ensures target != "dashboard" ==> alertLoads == old(alertLoads) && statusLoads == old(statusLoads)
    {
      if target == "dashboard" {
        alertLoads := alertLoads + 1;
        statusLoads := statusLoads + 1;
      }
    }

    /** A range button. */
    method SelectRange(range: string)
      modifies this`currentRange, this`chartLoading, this`chartRequests
      ensures currentRange == range
      ensures chartRequests == old(chartRequests) + (if currentAmount.Some? then [ChartRequest(currentAmount.value, range)] else [])
      ensures chartLoading == (currentAmount.Some? || old(chartLoading))
    {
      currentRange := range;
      LoadChartData();
    }

    /** `addAmountTag`: a new amount is appended, the input cleared and the
        page re-rendered; any other input changes nothing. */
    method AddAmountTag(input: string)
      modifies this`config, this`newAmountText
      modifies this`c2cField, this`forexField, this`shownAmounts, this`currentAmount, this`chartLoading, this`chartRequests
      ensures config == old(config).(targetAmounts := AddAmount(old(config.targetAmounts), input))
      ensures config.targetAmounts == old(config.targetAmounts) ==> unchanged(this)
      ensures config.targetAmounts != old(config.targetAmounts) ==>
                && newAmountText == ""
                && c2cField == config.c2cIntervalMinutes && forexField == config.forexIntervalHours
                && shownAmounts == SortedAmounts(config.targetAmounts)
      ensures config.targetAmounts != old(config.targetAmounts) ==>
                && currentAmount == AmountAfterRender(old(currentAmount), config.targetAmounts)
                && chartRequests == old(chartRequests) +
                     (if currentAmount != old(currentAmount) then [ChartRequest(currentAmount.value, currentRange)] else [])
                && chartLoading == (currentAmount != old(currentAmount) || old(chartLoading))
      ensures NoDuplicates(old(config.targetAmounts)) ==> NoDuplicates(config.targetAmounts)
    {
      AddAmountSpec(config.targetAmounts, input);
      var val := JsParseInt(input);
      if val.Some? && val.value >= 0 && (val.value as real) !in config.targetAmounts {
        config := config.(targetAmounts := config.targetAmounts + [val.value as real]);
        newAmountText := "";
        RenderConfigUI();
      }
    }

    /** `removeAmountTag`: the amount leaves the list and the page is
        re-rendered, which reloads the chart when the selection was the
        removed amount. */
    method RemoveAmountTag(amt: real)
      modifies this`config
      modifies this`c2cField, this`forexField, this`shownAmounts, this`currentAmount, this`chartLoading, this`chartRequests
      ensures config == old(config).(targetAmounts := RemoveAmount(old(config.targetAmounts), amt))
      ensures amt !in config.targetAmounts
      ensures c2cField == config.c2cIntervalMinutes && forexField == config.forexIntervalHours
      ensures shownAmounts == SortedAmounts(config.targetAmounts)
      ensures currentAmount == AmountAfterRender(old(currentAmount), config.targetAmounts)
      ensures chartRequests == old(chartRequests) +
                (if currentAmount != old(currentAmount) then [ChartRequest(currentAmount.value, currentRange)] else [])
      ensures chartLoading == (currentAmount != old(currentAmount) || old(chartLoading))
    {
      RemoveAmountSpec(config.targetAmounts, amt);
      config := config.(targetAmounts := RemoveAmount(config.targetAmounts, amt));
      RenderConfigUI();
    }

    /** `saveConfig`: posts the typed intervals with the current list; only
        an ok answer adopts them and re-renders. */
    method SaveConfig(c2cInput: string, forexInput: string, outcome: Outcome)
      modifies this`configPosts, this`saveStatus, this`config
      modifies this`c2cField, this`forexField, this`shownAmounts, this`currentAmount, this`chartLoading, this`chartRequests
      ensures configPosts == old(configPosts) + [SavedConfigJson(ClientConfig(IntValue(c2cInput), IntValue(forexInput), old(config.targetAmounts)))]
      ensures saveStatus == match outcome case OkResponse => "Config Saved!" case ErrorResponse => "Save Failed" case NetworkError => "Save Error"
      ensures outcome == OkResponse ==>
                && config == ClientConfig(IntValue(c2cInput), IntValue(forexInput), old(config.targetAmounts))
                && c2cField == config.c2cIntervalMinutes && forexField == config.forexIntervalHours
                && shownAmounts == SortedAmounts(config.targetAmounts)
      ensures outcome == OkResponse ==>
                && currentAmount == AmountAfterRender(old(currentAmount), config.targetAmounts)
                && chartRequests == old(chartRequests) +
                     (if currentAmount != old(currentAmount) then [ChartRequest(currentAmount.value, currentRange)] else [])
                && chartLoading == (currentAmount != old(currentAmount) || old(chartLoading))
      ensures outcome != OkResponse ==>
                && config == old(config) && c2cField == old(c2cField) && forexField == old(forexField)
                && shownAmounts == old(shownAmounts) && currentAmount == old(currentAmount)
                && chartRequests == old(chartRequests) && chartLoading == old(chartLoading)
    {
      var newConfig := ClientConfig(IntValue(c2cInput), IntValue(forexInput), config.targetAmounts);
      configPosts := configPosts + [SavedConfigJson(newConfig)];
      match outcome
      case OkResponse =>
        saveStatus := "Config Saved!";
        config := newConfig;
        RenderConfigUI();
      case ErrorResponse =>
        saveStatus := "Save Failed";
      case NetworkError =>
        saveStatus := "Save Error";
    }

    /** `resetAlert`: nothing without confirmation or for a key that does not
        split into three parts; the alert table is reloaded only after an ok
        answer. */
    method ResetAlert(key: string, confirmed: bool, outcome: Outcome)
      modifies this`resetRequests, this`alertLoads, this`popups
      ensures !confirmed || ParseAlertKey(key).None? ==>
                resetRequests == old(resetRequests) && alertLoads == old(alertLoads) && popups == old(popups)
      ensures confirmed && ParseAlertKey(key).Some? ==>
                && resetRequests == old(resetRequests) + [ParseAlertKey(key).value]
                && alertLoads == old(alertLoads) + (if outcome == OkResponse then 1 else 0)
                && popups == old(popups) + (if outcome == ErrorResponse then ["Failed to reset alert"] else [])
    {
      if !confirmed {
        return;
      }
      var payload := ParseAlertKey(key);
      if payload.None? {
        return;
      }
      resetRequests := resetRequests + [payload.value];
      match outcome
      case OkResponse => alertLoads := alertLoads + 1;
      case ErrorResponse => popups := popups + ["Failed to reset alert"];
      case NetworkError =>
    }

    /** `renderActiveAlerts`. */
    method RenderActiveAlerts(states: Option<seq<(string, real)>>)
      modifies this`alertTable
      ensures alertTable == AlertTableOf(states)
    {
      if states.None? || |states.value| == 0 {
        alertTable := NoThresholds;
        return;
      }
      alertTable := Rows(states.value);
    }

    /** `updateSystemStatusUI`. */
    method UpdateSystemStatusUI(statusMap: Option<seq<(string, StatusEntry)>>)
      modifies this`indicator, this`statusDetails
      ensures HealthShown(statusMap, indicator, statusDetails)
    {
      indicator, statusDetails := HealthSummary(statusMap);
    }

    /** `loadSystemStatus`: a failed request shows a connection error and
        keeps the details; an answer is shown as `updateSystemStatusUI` shows
        it. */
    method LoadSystemStatus(response: Option<Option<seq<(string, StatusEntry)>>>)
      modifies this`indicator, this`statusDetails
      ensures response.None? ==> indicator == Indicator(Failing, "Connection Error") && statusDetails == old(statusDetails)
      ensures response.Some? ==> HealthShown(response.value, indicator, statusDetails)
    {
      if response.None? {
        indicator := Indicator(Failing, "Connection Error");
        return;
      }
      UpdateSystemStatusUI(response.value);
    }
  }
}
