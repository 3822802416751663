/** The order payloads of the SDK: `Order.to_dict`, which turns a flat order
    record into the nested object the order endpoints take, and the partial
    update payload `replace_order` / `areplace_order` build.

    Both decide for each key whether it is present, some by Python truthiness
    (`if self.limit_price:` drops `None` and `""`) and some by `is not None`
    (`False` and `""` are kept).  Each dictionary is specified as the chain of
    conditional assignments the source performs (`Collect` over a list of
    entries, in source order) and built by a method written as the source's
    if-chain; the lemmas state, key by key, what ends up in it. */
module OrderPayload {
  import opened Common
  import opened Json

  datatype Order = Order(
    accountId: string,
    symbol: string,
    quantity: string,
    orderType: string,
    tradeAction: string,
    duration: string,
    expiration: Option<Instant>,
    route: Option<string>,
    limitPrice: Option<string>,
    stopPrice: Option<string>,
    addLiquidity: Option<bool>,
    allOrNone: Option<bool>,
    bookOnly: Option<bool>,
    discretionaryPrice: Option<string>,
    marketActivationRules: Option<seq<Json>>,
    nonDisplay: Option<bool>,
    pegValue: Option<string>,
    showOnlyQuantity: Option<string>,
    timeActivationRules: Option<seq<Json>>,
    trailingStop: Option<map<string, Json>>,
    buyingPowerWarning: Option<string>,
    orderConfirmId: Option<string>)

  /** The constructor's default route. */
  const DefaultRoute := "Intelligent"

  /** The keys of `to_dict` that are present whatever the order. */
  const RequiredKeys: set<string> :=
    {"AccountID", "Symbol", "Quantity", "OrderType", "TradeAction", "TimeInForce", "Route"}

  /** Every key `to_dict` can produce at the top level. */
  const OrderKeys: set<string> := RequiredKeys + {"LimitPrice", "StopPrice", "AdvancedOptions", "OrderConfirmID"}

  /** Every key that can appear under `AdvancedOptions`. */
  const AdvancedKeys: set<string> :=
    {"AddLiquidity", "AllOrNone", "BookOnly", "DiscretionaryPrice", "MarketActivationRules",
     "NonDisplay", "PegValue", "ShowOnlyQuantity", "TimeActivationRules", "TrailingStop",
     "BuyingPowerWarning"}

  /** At least one of the eleven advanced fields is not `None`. */
  predicate HasAdvanced(o: Order) {
    || o.addLiquidity.Some? || o.allOrNone.Some? || o.bookOnly.Some?
    || o.discretionaryPrice.Some? || o.marketActivationRules.Some? || o.nonDisplay.Some?
    || o.pegValue.Some? || o.showOnlyQuantity.Some? || o.timeActivationRules.Some?
    || o.trailingStop.Some? || o.buyingPowerWarning.Some?
  }

  /** The eleven `is not None` assignments into `advanced_options`, in source order. */
  function AdvancedEntry(o: Order, i: nat): Entry {
    if i == 0 then ("AddLiquidity", SomeBool(o.addLiquidity))
    else if i == 1 then ("AllOrNone", SomeBool(o.allOrNone))
    else if i == 2 then ("BookOnly", SomeBool(o.bookOnly))
    else if i == 3 then ("DiscretionaryPrice", SomeStr(o.discretionaryPrice))
    else if i == 4 then ("MarketActivationRules", SomeList(o.marketActivationRules))
    else if i == 5 then ("NonDisplay", SomeBool(o.nonDisplay))
    else if i == 6 then ("PegValue", SomeStr(o.pegValue))
    else if i == 7 then ("ShowOnlyQuantity", SomeStr(o.showOnlyQuantity))
    else if i == 8 then ("TimeActivationRules", SomeList(o.timeActivationRules))
    else if i == 9 then ("TrailingStop", SomeObj(o.trailingStop))
    else ("BuyingPowerWarning", SomeStr(o.buyingPowerWarning))
  }

  function AdvancedEntries(o: Order): (es: seq<Entry>)
    ensures |es| == 11
  {
    seq(11, i requires 0 <= i < 11 => AdvancedEntry(o, i))
  }

  lemma AdvancedKeysDistinct(o: Order)
    ensures DistinctKeys(AdvancedEntries(o))
  {
  }

  /** The `advanced_options` dictionary of `to_dict`. */
  function AdvancedOptions(o: Order): map<string, Json> {
    Collect(AdvancedEntries(o), 11)
  }

  /** The `TimeInForce` object: the duration, then the expiration when one is given. */
  function TimeInForceEntries(o: Order): (es: seq<Entry>)
    ensures |es| == 2 && DistinctKeys(es)
  {
    [("Duration", Some(JStr(o.duration))),
     ("Expiration", if o.expiration.Some? then Some(JIso(o.expiration.value)) else None)]
  }

  function TimeInForce(o: Order): map<string, Json> {
    Collect(TimeInForceEntries(o), 2)
  }

  /** The assignments into `order_dict`, in source order: the seven keys of
      the initial literal, then the conditional ones. */
  function OrderEntry(o: Order, i: nat): Entry {
    if i == 0 then ("AccountID", Some(JStr(o.accountId)))
    else if i == 1 then ("Symbol", Some(JStr(o.symbol)))
    else if i == 2 then ("Quantity", Some(JStr(o.quantity)))
    else if i == 3 then ("OrderType", Some(JStr(o.orderType)))
    else if i == 4 then ("TradeAction", Some(JStr(o.tradeAction)))
    else if i == 5 then ("TimeInForce", Some(JObj(TimeInForce(o))))
    else if i == 6 then ("Route", Some(OptStr(o.route)))
    else if i == 7 then ("LimitPrice", TruthyStr(o.limitPrice))
    else if i == 8 then ("StopPrice", TruthyStr(o.stopPrice))
    else if i == 9 then ("AdvancedOptions", if AdvancedOptions(o) != map[] then Some(JObj(AdvancedOptions(o))) else None)
    else ("OrderConfirmID", TruthyStr(o.orderConfirmId))
  }

  function OrderEntries(o: Order): (es: seq<Entry>)
    ensures |es| == 11
  {
    seq(11, i requires 0 <= i < 11 => OrderEntry(o, i))
  }

  lemma OrderKeysDistinct(o: Order)
    ensures DistinctKeys(OrderEntries(o))
  {
  }

  /** The dictionary `Order.to_dict` returns. */
  function OrderDict(o: Order): map<string, Json> {
    Collect(OrderEntries(o), 11)
  }

  /** The `advanced_options` half of `to_dict`. */
  method BuildAdvancedOptions(o: Order) returns (advanced: map<string, Json>)
    ensures advanced == AdvancedOptions(o)
  {
    ghost var ae := AdvancedEntries(o);
    advanced := map[];
    advanced := if o.addLiquidity.Some? then advanced["AddLiquidity" := JBool(o.addLiquidity.value)] else advanced;
    assert advanced == Collect(ae, 1);
    advanced := if o.allOrNone.Some? then advanced["AllOrNone" := JBool(o.allOrNone.value)] else advanced;
    assert advanced == Collect(ae, 2);
    advanced := if o.bookOnly.Some? then advanced["BookOnly" := JBool(o.bookOnly.value)] else advanced;
    assert advanced == Collect(ae, 3);
    advanced := if o.discretionaryPrice.Some? then advanced["DiscretionaryPrice" := JStr(o.discretionaryPrice.value)] else advanced;
    assert advanced == Collect(ae, 4);
    advanced := if o.marketActivationRules.Some? then advanced["MarketActivationRules" := JArr(o.marketActivationRules.value)] else advanced;
    assert advanced == Collect(ae, 5);
    advanced := if o.nonDisplay.Some? then advanced["NonDisplay" := JBool(o.nonDisplay.value)] else advanced;
    assert advanced == Collect(ae, 6);
    advanced := AddAdvancedRest(o, advanced);
  }

  /** The last five `if` statements of the `advanced_options` chain. */
  method AddAdvancedRest(o: Order, soFar: map<string, Json>) returns (advanced: map<string, Json>)
    requires soFar == Collect(AdvancedEntries(o), 6)
    ensures advanced == AdvancedOptions(o)
  {
    ghost var ae := AdvancedEntries(o);
    advanced := soFar;
    advanced := if o.pegValue.Some? then advanced["PegValue" := JStr(o.pegValue.value)] else advanced;
    assert advanced == Collect(ae, 7);
    advanced := if o.showOnlyQuantity.Some? then advanced["ShowOnlyQuantity" := JStr(o.showOnlyQuantity.value)] else advanced;
    assert advanced == Collect(ae, 8);
    advanced := if o.timeActivationRules.Some? then advanced["TimeActivationRules" := JArr(o.timeActivationRules.value)] else advanced;
    assert advanced == Collect(ae, 9);
    advanced := if o.trailingStop.Some? then advanced["TrailingStop" := JObj(o.trailingStop.value)] else advanced;
    assert advanced == Collect(ae, 10);
    advanced := if o.buyingPowerWarning.Some? then advanced["BuyingPowerWarning" := JStr(o.buyingPowerWarning.value)] else advanced;
    assert advanced == Collect(ae, 11);
  }

  /** `Order.to_dict`, filling the dictionaries step by step as the source does.
      The nested `TimeInForce` dictionary is completed before it is stored,
      which leaves the same value as the source's in-place update. */
  method ToDict(o: Order) returns (d: map<string, Json>)
    ensures d == OrderDict(o)
  {
    ghost var es := OrderEntries(o);

    var timeInForce := map["Duration" := JStr(o.duration)];
    assert timeInForce == Collect(TimeInForceEntries(o), 1);
    if o.expiration.Some? {
      timeInForce := timeInForce["Expiration" := JIso(o.expiration.value)];
    }
    assert timeInForce == TimeInForce(o);

    d := map["AccountID" := JStr(o.accountId), "Symbol" := JStr(o.symbol), "Quantity" := JStr(o.quantity),
             "OrderType" := JStr(o.orderType), "TradeAction" := JStr(o.tradeAction),
             "TimeInForce" := JObj(timeInForce), "Route" := OptStr(o.route)];
    assert Collect(es, 1) == map["AccountID" := JStr(o.accountId)];
    assert Collect(es, 2) == Collect(es, 1)["Symbol" := JStr(o.symbol)];
    assert Collect(es, 3) == Collect(es, 2)["Quantity" := JStr(o.quantity)];
    assert Collect(es, 4) == Collect(es, 3)["OrderType" := JStr(o.orderType)];
    assert Collect(es, 5) == Collect(es, 4)["TradeAction" := JStr(o.tradeAction)];
    assert Collect(es, 6) == Collect(es, 5)["TimeInForce" := JObj(timeInForce)];
    assert d == Collect(es, 7);
    if StrSet(o.limitPrice) {
      d := d["LimitPrice" := JStr(o.limitPrice.value)];
    }
    assert d == Collect(es, 8);
    if StrSet(o.stopPrice) {
      d := d["StopPrice" := JStr(o.stopPrice.value)];
    }
    assert d == Collect(es, 9);

    var advanced := BuildAdvancedOptions(o);

    if advanced != map[] {
      d := d["AdvancedOptions" := JObj(advanced)];
    }
    assert d == Collect(es, 10);
    if StrSet(o.orderConfirmId) {
      d := d["OrderConfirmID" := JStr(o.orderConfirmId.value)];
    }
  }

  /** Each advanced option is present exactly when its field is not `None`,
      and holds the field's value unchanged (so `False` and `""` are kept). */
  lemma AdvancedOptionsContents(o: Order)
    ensures var a := AdvancedOptions(o);
      && ("AddLiquidity" in a <==> o.addLiquidity.Some?) && (o.addLiquidity.Some? ==> a["AddLiquidity"] == JBool(o.addLiquidity.value))
      && ("AllOrNone" in a <==> o.allOrNone.Some?) && (o.allOrNone.Some? ==> a["AllOrNone"] == JBool(o.allOrNone.value))
      && ("BookOnly" in a <==> o.bookOnly.Some?) && (o.bookOnly.Some? ==> a["BookOnly"] == JBool(o.bookOnly.value))
      && ("DiscretionaryPrice" in a <==> o.discretionaryPrice.Some?) && (o.discretionaryPrice.Some? ==> a["DiscretionaryPrice"] == JStr(o.discretionaryPrice.value))
      && ("MarketActivationRules" in a <==> o.marketActivationRules.Some?) && (o.marketActivationRules.Some? ==> a["MarketActivationRules"] == JArr(o.marketActivationRules.value))
      && ("NonDisplay" in a <==> o.nonDisplay.Some?) && (o.nonDisplay.Some? ==> a["NonDisplay"] == JBool(o.nonDisplay.value))
      && ("PegValue" in a <==> o.pegValue.Some?) && (o.pegValue.Some? ==> a["PegValue"] == JStr(o.pegValue.value))
      && ("ShowOnlyQuantity" in a <==> o.showOnlyQuantity.Some?) && (o.showOnlyQuantity.Some? ==> a["ShowOnlyQuantity"] == JStr(o.showOnlyQuantity.value))
      && ("TimeActivationRules" in a <==> o.timeActivationRules.Some?) && (o.timeActivationRules.Some? ==> a["TimeActivationRules"] == JArr(o.timeActivationRules.value))
      && ("TrailingStop" in a <==> o.trailingStop.Some?) && (o.trailingStop.Some? ==> a["TrailingStop"] == JObj(o.trailingStop.value))
      && ("BuyingPowerWarning" in a <==> o.buyingPowerWarning.Some?) && (o.buyingPowerWarning.Some? ==> a["BuyingPowerWarning"] == JStr(o.buyingPowerWarning.value))
  {
    var ae := AdvancedEntries(o);
    AdvancedKeysDistinct(o);
    CollectAt(ae, 11, 0);
    CollectAt(ae, 11, 1);
    CollectAt(ae, 11, 2);
    CollectAt(ae, 11, 3);
    CollectAt(ae, 11, 4);
    CollectAt(ae, 11, 5);
    CollectAt(ae, 11, 6);
    CollectAt(ae, 11, 7);
    CollectAt(ae, 11, 8);
    CollectAt(ae, 11, 9);
    CollectAt(ae, 11, 10);
  }

  /** `AdvancedOptions` is non-empty exactly when some advanced field is not
      `None`, and it holds no key but the eleven advanced ones. */
  lemma AdvancedOptionsShape(o: Order)
    ensures AdvancedOptions(o) != map[] <==> HasAdvanced(o)
    ensures AdvancedOptions(o).Keys <= AdvancedKeys
  {
    var ae := AdvancedEntries(o);
    CollectEmpty(ae, 11);
    if HasAdvanced(o) {
      assert exists i :: 0 <= i < 11 && ae[i].1.Some? by {
        if o.addLiquidity.Some? { assert ae[0].1.Some?; }
        else if o.allOrNone.Some? { assert ae[1].1.Some?; }
        else if o.bookOnly.Some? { assert ae[2].1.Some?; }
        else if o.discretionaryPrice.Some? { assert ae[3].1.Some?; }
        else if o.marketActivationRules.Some? { assert ae[4].1.Some?; }
        else if o.nonDisplay.Some? { assert ae[5].1.Some?; }
        else if o.pegValue.Some? { assert ae[6].1.Some?; }
        else if o.showOnlyQuantity.Some? { assert ae[7].1.Some?; }
        else if o.timeActivationRules.Some? { assert ae[8].1.Some?; }
        else if o.trailingStop.Some? { assert ae[9].1.Some?; }
        else { assert ae[10].1.Some?; }
      }
    }
    forall k | k in AdvancedOptions(o) ensures k in AdvancedKeys {
      CollectKeys(ae, 11, k);
    }
  }

  /** The seven required keys are always present with the order's values;
      `TimeInForce` holds the duration, and the expiration exactly when one
      is supplied. */
  lemma OrderDictRequired(o: Order)
    ensures var d := OrderDict(o);
      && RequiredKeys <= d.Keys
      && d["AccountID"] == JStr(o.accountId) && d["Symbol"] == JStr(o.symbol)
      && d["Quantity"] == JStr(o.quantity) && d["OrderType"] == JStr(o.orderType)
      && d["TradeAction"] == JStr(o.tradeAction) && d["Route"] == OptStr(o.route)
      && d["TimeInForce"] == JObj(TimeInForce(o))
    ensures var t := TimeInForce(o);
      && "Duration" in t && t["Duration"] == JStr(o.duration)
      && ("Expiration" in t <==> o.expiration.Some?)
      && (o.expiration.Some? ==> t["Expiration"] == JIso(o.expiration.value))
      && t.Keys <= {"Duration", "Expiration"}
  {
    var es := OrderEntries(o);
    OrderKeysDistinct(o);
    CollectAt(es, 11, 0);
    CollectAt(es, 11, 1);
    CollectAt(es, 11, 2);
    CollectAt(es, 11, 3);
    CollectAt(es, 11, 4);
    CollectAt(es, 11, 5);
    CollectAt(es, 11, 6);
    var ts := TimeInForceEntries(o);
    CollectAt(ts, 2, 0);
    CollectAt(ts, 2, 1);
    forall k | k in TimeInForce(o) ensures k in {"Duration", "Expiration"} {
      CollectKeys(ts, 2, k);
    }
  }

  /** `LimitPrice`, `StopPrice` and `OrderConfirmID` are present exactly when
      their field is truthy (so an empty string is dropped); `AdvancedOptions`
      is present exactly when some advanced field is not `None`; no other key
      ever appears. */
  lemma OrderDictOptional(o: Order)
    ensures var d := OrderDict(o);
      && d.Keys <= OrderKeys
      && ("LimitPrice" in d <==> StrSet(o.limitPrice)) && (StrSet(o.limitPrice) ==> d["LimitPrice"] == JStr(o.limitPrice.value))
      && ("StopPrice" in d <==> StrSet(o.stopPrice)) && (StrSet(o.stopPrice) ==> d["StopPrice"] == JStr(o.stopPrice.value))
      && ("OrderConfirmID" in d <==> StrSet(o.orderConfirmId)) && (StrSet(o.orderConfirmId) ==> d["OrderConfirmID"] == JStr(o.orderConfirmId.value))
      && ("AdvancedOptions" in d <==> HasAdvanced(o)) && (HasAdvanced(o) ==> d["AdvancedOptions"] == JObj(AdvancedOptions(o)))
  {
    var es := OrderEntries(o);
    OrderKeysDistinct(o);
    AdvancedOptionsShape(o);
    CollectAt(es, 11, 7);
    CollectAt(es, 11, 8);
    CollectAt(es, 11, 9);
    CollectAt(es, 11, 10);
    forall k | k in OrderDict(o) ensures k in OrderKeys {
      CollectKeys(es, 11, k);
    }
  }

  /** An order with only the required fields serialises to exactly the seven
      required keys, with a `TimeInForce` holding only `Duration`, and no
      `AdvancedOptions`. */
  lemma RequiredOnlyOrder(o: Order)
    requires o.expiration.None? && !StrSet(o.limitPrice) && !StrSet(o.stopPrice)
    requires !StrSet(o.orderConfirmId) && !HasAdvanced(o)
    ensures OrderDict(o).Keys == RequiredKeys
    ensures OrderDict(o)["TimeInForce"] == JObj(map["Duration" := JStr(o.duration)])
  {
    OrderDictRequired(o);
    OrderDictOptional(o);
    var t := TimeInForce(o);
    assert t.Keys == {"Duration"};
    assert t == map["Duration" := JStr(o.duration)];
  }

  /** Setting one more advanced field (a peg value) adds exactly that key
      under `AdvancedOptions` and leaves every other advanced option as it was. */
  lemma AddPegValue(o: Order, peg: string)
    requires o.pegValue.None?
    ensures var o' := o.(pegValue := Some(peg));
      && "AdvancedOptions" in OrderDict(o')
      && OrderDict(o')["AdvancedOptions"] == JObj(AdvancedOptions(o)["PegValue" := JStr(peg)])
  {
    var o' := o.(pegValue := Some(peg));
    var ae, ae' := AdvancedEntries(o), AdvancedEntries(o');
    assert forall j :: 0 <= j < 11 && j != 6 ==> ae'[j] == ae[j];
    AdvancedKeysDistinct(o);
    CollectSet(ae, ae', 11, 6, JStr(peg));
    AdvancedOptionsShape(o');
    OrderDictOptional(o');
  }

  // ---------------------------------------------------------------------
  // The partial update of `replace_order` / `areplace_order`

  /** The optional arguments of `replace_order`; every one defaults to `None`. */
  datatype Replacement = Replacement(
    quantity: Option<string>,
    limitPrice: Option<string>,
    stopPrice: Option<string>,
    orderType: Option<string>,
    showOnlyQuantity: Option<string>,
    trailingStopAmount: Option<string>,
    trailingStopPercent: Option<string>,
    marketActivationClearAll: Option<bool>,
    marketActivationRules: Option<seq<Json>>,
    timeActivationClearAll: Option<bool>,
    timeActivationRules: Option<seq<Instant>>)

  /** Python truthiness of an optional list: present and non-empty. */
  predicate ListSet<T>(o: Option<seq<T>>) {
    o.Some? && |o.value| > 0
  }

  predicate HasTrailingStop(r: Replacement) {
    StrSet(r.trailingStopAmount) || StrSet(r.trailingStopPercent)
  }

  predicate HasMarketRules(r: Replacement) {
    r.marketActivationClearAll.Some? || ListSet(r.marketActivationRules)
  }

  predicate HasTimeRules(r: Replacement) {
    r.timeActivationClearAll.Some? || ListSet(r.timeActivationRules)
  }

  predicate HasReplaceAdvanced(r: Replacement) {
    StrSet(r.showOnlyQuantity) || HasTrailingStop(r) || HasMarketRules(r) || HasTimeRules(r)
  }

  /** Each time activation instant becomes `{"TimeUtc": <ISO 8601 in UTC>}`. */
  function TimeRuleObjects(ts: seq<Instant>): (objs: seq<Json>)
    ensures |objs| == |ts|
  {
    seq(|ts|, i requires 0 <= i < |ts| => JObj(map["TimeUtc" := JIso(ts[i])]))
  }

  function TrailingStopEntries(r: Replacement): (es: seq<Entry>)
    ensures |es| == 2 && DistinctKeys(es)
  {
    [("Amount", TruthyStr(r.trailingStopAmount)), ("Percent", TruthyStr(r.trailingStopPercent))]
  }

  function MarketRulesEntries(r: Replacement): (es: seq<Entry>)
    ensures |es| == 2 && DistinctKeys(es)
  {
    [("ClearAll", SomeBool(r.marketActivationClearAll)),
     ("Rules", if ListSet(r.marketActivationRules) then Some(JArr(r.marketActivationRules.value)) else None)]
  }

  function TimeRulesEntries(r: Replacement): (es: seq<Entry>)
    ensures |es| == 2 && DistinctKeys(es)
  {
    [("ClearAll", SomeBool(r.timeActivationClearAll)),
     ("Rules", if ListSet(r.timeActivationRules) then Some(JArr(TimeRuleObjects(r.timeActivationRules.value))) else None)]
  }

  /** The nested objects, as they stand once their `if` block is done. */
  function TrailingStop(r: Replacement): map<string, Json> {
    Collect(TrailingStopEntries(r), 2)
  }

  function MarketRules(r: Replacement): map<string, Json> {
    Collect(MarketRulesEntries(r), 2)
  }

  function TimeRules(r: Replacement): map<string, Json> {
    Collect(TimeRulesEntries(r), 2)
  }

  /** The assignments into the replacement's `advanced_options`, in source order. */
  function ReplaceAdvancedEntries(r: Replacement): (es: seq<Entry>)
    ensures |es| == 4 && DistinctKeys(es)
  {
    [("ShowOnlyQuantity", TruthyStr(r.showOnlyQuantity)),
     ("TrailingStop", if HasTrailingStop(r) then Some(JObj(TrailingStop(r))) else None),
     ("MarketActivationRules", if HasMarketRules(r) then Some(JObj(MarketRules(r))) else None),
     ("TimeActivationRules", if HasTimeRules(r) then Some(JObj(TimeRules(r))) else None)]
  }

  function ReplaceAdvanced(r: Replacement): map<string, Json> {
    Collect(ReplaceAdvancedEntries(r), 4)
  }

  /** The assignments into `payload`, in source order. */
  function ReplaceEntries(r: Replacement): (es: seq<Entry>)
    ensures |es| == 5 && DistinctKeys(es)
  {
    [("Quantity", TruthyStr(r.quantity)),
     ("LimitPrice", TruthyStr(r.limitPrice)),
     ("StopPrice", TruthyStr(r.stopPrice)),
     ("OrderType", TruthyStr(r.orderType)),
     ("AdvancedOptions", if ReplaceAdvanced(r) != map[] then Some(JObj(ReplaceAdvanced(r))) else None)]
  }

  /** The payload `replace_order` and `areplace_order` send. */
  function ReplacePayload(r: Replacement): map<string, Json> {
    Collect(ReplaceEntries(r), 5)
  }

  /** The `advanced_options` half of `replace_order`.  Each nested object is
      filled in a local before it is stored, which leaves the value the
      source's in-place updates of `advanced_options[...]` leave. */
  method BuildReplaceAdvanced(r: Replacement) returns (advanced: map<string, Json>)
    ensures advanced == ReplaceAdvanced(r)
  {
    ghost var ae := ReplaceAdvancedEntries(r);
    advanced := map[];
    advanced := if StrSet(r.showOnlyQuantity) then advanced["ShowOnlyQuantity" := JStr(r.showOnlyQuantity.value)] else advanced;
    assert advanced == Collect(ae, 1);
    if StrSet(r.trailingStopAmount) || StrSet(r.trailingStopPercent) {
      var trailing: map<string, Json> := map[];
      trailing := if StrSet(r.trailingStopAmount) then trailing["Amount" := JStr(r.trailingStopAmount.value)] else trailing;
      assert trailing == Collect(TrailingStopEntries(r), 1);
      trailing := if StrSet(r.trailingStopPercent) then trailing["Percent" := JStr(r.trailingStopPercent.value)] else trailing;
      assert trailing == TrailingStop(r);
      advanced := advanced["TrailingStop" := JObj(trailing)];
    }
    assert advanced == Collect(ae, 2);
    if r.marketActivationClearAll.Some? || ListSet(r.marketActivationRules) {
      var market: map<string, Json> := map[];
      market := if r.marketActivationClearAll.Some? then market["ClearAll" := JBool(r.marketActivationClearAll.value)] else market;
      assert market == Collect(MarketRulesEntries(r), 1);
      market := if ListSet(r.marketActivationRules) then market["Rules" := JArr(r.marketActivationRules.value)] else market;
      assert market == MarketRules(r);
      advanced := advanced["MarketActivationRules" := JObj(market)];
    }
    assert advanced == Collect(ae, 3);
    if r.timeActivationClearAll.Some? || ListSet(r.timeActivationRules) {
      var time: map<string, Json> := map[];
      time := if r.timeActivationClearAll.Some? then time["ClearAll" := JBool(r.timeActivationClearAll.value)] else time;
      assert time == Collect(TimeRulesEntries(r), 1);
      time := if ListSet(r.timeActivationRules) then time["Rules" := JArr(TimeRuleObjects(r.timeActivationRules.value))] else time;
      assert time == TimeRules(r);
      advanced := advanced["TimeActivationRules" := JObj(time)];
    }
    assert advanced == Collect(ae, 4);
  }

  /** The payload construction of `replace_order` and `areplace_order`. */
  method BuildReplacePayload(r: Replacement) returns (payload: map<string, Json>)
    ensures payload == ReplacePayload(r)
  {
    ghost var es := ReplaceEntries(r);
    payload := map[];
    payload := if StrSet(r.quantity) then payload["Quantity" := JStr(r.quantity.value)] else payload;
    assert payload == Collect(es, 1);
    payload := if StrSet(r.limitPrice) then payload["LimitPrice" := JStr(r.limitPrice.value)] else payload;
    assert payload == Collect(es, 2);
    payload := if StrSet(r.stopPrice) then payload["StopPrice" := JStr(r.stopPrice.value)] else payload;
    assert payload == Collect(es, 3);
    payload := if StrSet(r.orderType) then payload["OrderType" := JStr(r.orderType.value)] else payload;
    assert payload == Collect(es, 4);

    var advanced := BuildReplaceAdvanced(r);

    payload := if advanced != map[] then payload["AdvancedOptions" := JObj(advanced)] else payload;
    assert payload == Collect(es, 5);
  }

  /** The nested objects are present exactly when their `if` lets them in,
      hold exactly the sub-keys their arguments supply (a `ClearAll` of
      `False` is kept, an empty rule list is dropped), and each time rule
      becomes a `TimeUtc` object. */
  lemma ReplaceAdvancedContents(r: Replacement)
    ensures var a := ReplaceAdvanced(r);
      && a.Keys <= {"ShowOnlyQuantity", "TrailingStop", "MarketActivationRules", "TimeActivationRules"}
      && ("ShowOnlyQuantity" in a <==> StrSet(r.showOnlyQuantity))
      && (StrSet(r.showOnlyQuantity) ==> a["ShowOnlyQuantity"] == JStr(r.showOnlyQuantity.value))
      && ("TrailingStop" in a <==> HasTrailingStop(r))
      && (HasTrailingStop(r) ==> a["TrailingStop"] == JObj(TrailingStop(r)))
      && ("MarketActivationRules" in a <==> HasMarketRules(r))
      && (HasMarketRules(r) ==> a["MarketActivationRules"] == JObj(MarketRules(r)))
      && ("TimeActivationRules" in a <==> HasTimeRules(r))
      && (HasTimeRules(r) ==> a["TimeActivationRules"] == JObj(TimeRules(r)))
    ensures var t := TrailingStop(r);
      && t.Keys <= {"Amount", "Percent"}
      && ("Amount" in t <==> StrSet(r.trailingStopAmount))
      && (StrSet(r.trailingStopAmount) ==> t["Amount"] == JStr(r.trailingStopAmount.value))
      && ("Percent" in t <==> StrSet(r.trailingStopPercent))
      && (StrSet(r.trailingStopPercent) ==> t["Percent"] == JStr(r.trailingStopPercent.value))
    ensures var m := MarketRules(r);
      && m.Keys <= {"ClearAll", "Rules"}
      && ("ClearAll" in m <==> r.marketActivationClearAll.Some?)
      && (r.marketActivationClearAll.Some? ==> m["ClearAll"] == JBool(r.marketActivationClearAll.value))
      && ("Rules" in m <==> ListSet(r.marketActivationRules))
      && (ListSet(r.marketActivationRules) ==> m["Rules"] == JArr(r.marketActivationRules.value))
    ensures var t := TimeRules(r);
      && t.Keys <= {"ClearAll", "Rules"}
      && ("ClearAll" in t <==> r.timeActivationClearAll.Some?)
      && (r.timeActivationClearAll.Some? ==> t["ClearAll"] == JBool(r.timeActivationClearAll.value))
      && ("Rules" in t <==> ListSet(r.timeActivationRules))
      && (ListSet(r.timeActivationRules) ==> t["Rules"] == JArr(TimeRuleObjects(r.timeActivationRules.value)))
    ensures forall ts: seq<Instant>, i :: 0 <= i < |ts| ==> TimeRuleObjects(ts)[i] == JObj(map["TimeUtc" := JIso(ts[i])])
  {
    var ae := ReplaceAdvancedEntries(r);
    CollectAt(ae, 4, 0);
    CollectAt(ae, 4, 1);
    CollectAt(ae, 4, 2);
    CollectAt(ae, 4, 3);
    forall k | k in ReplaceAdvanced(r) ensures k in {"ShowOnlyQuantity", "TrailingStop", "MarketActivationRules", "TimeActivationRules"} {
      CollectKeys(ae, 4, k);
    }
    var ts, ms, tr := TrailingStopEntries(r), MarketRulesEntries(r), TimeRulesEntries(r);
    CollectAt(ts, 2, 0);
    CollectAt(ts, 2, 1);
    CollectAt(ms, 2, 0);
    CollectAt(ms, 2, 1);
    CollectAt(tr, 2, 0);
    CollectAt(tr, 2, 1);
    forall k | k in TrailingStop(r) ensures k in {"Amount", "Percent"} {
      CollectKeys(ts, 2, k);
    }
    forall k | k in MarketRules(r) ensures k in {"ClearAll", "Rules"} {
      CollectKeys(ms, 2, k);
    }
    forall k | k in TimeRules(r) ensures k in {"ClearAll", "Rules"} {
      CollectKeys(tr, 2, k);
    }
  }

  /** The top-level keys are present exactly when their argument is truthy;
      `AdvancedOptions` is present exactly when some advanced argument lets a
      key in, and no other key ever appears. */
  lemma ReplacePayloadContents(r: Replacement)
    ensures var p := ReplacePayload(r);
      && p.Keys <= {"Quantity", "LimitPrice", "StopPrice", "OrderType", "AdvancedOptions"}
      && ("Quantity" in p <==> StrSet(r.quantity)) && (StrSet(r.quantity) ==> p["Quantity"] == JStr(r.quantity.value))
      && ("LimitPrice" in p <==> StrSet(r.limitPrice)) && (StrSet(r.limitPrice) ==> p["LimitPrice"] == JStr(r.limitPrice.value))
      && ("StopPrice" in p <==> StrSet(r.stopPrice)) && (StrSet(r.stopPrice) ==> p["StopPrice"] == JStr(r.stopPrice.value))
      && ("OrderType" in p <==> StrSet(r.orderType)) && (StrSet(r.orderType) ==> p["OrderType"] == JStr(r.orderType.value))
      && ("AdvancedOptions" in p <==> HasReplaceAdvanced(r))
      && (HasReplaceAdvanced(r) ==> p["AdvancedOptions"] == JObj(ReplaceAdvanced(r)))
  {
    var es := ReplaceEntries(r);
    CollectAt(es, 5, 0);
    CollectAt(es, 5, 1);
    CollectAt(es, 5, 2);
    CollectAt(es, 5, 3);
    CollectAt(es, 5, 4);
    forall k | k in ReplacePayload(r) ensures k in {"Quantity", "LimitPrice", "StopPrice", "OrderType", "AdvancedOptions"} {
      CollectKeys(es, 5, k);
    }
    ReplaceAdvancedContents(r);
    var ae := ReplaceAdvancedEntries(r);
    CollectEmpty(ae, 4);
    if HasReplaceAdvanced(r) {
      if StrSet(r.showOnlyQuantity) { assert ae[0].1.Some?; }
      else if HasTrailingStop(r) { assert ae[1].1.Some?; }
      else if HasMarketRules(r) { assert ae[2].1.Some?; }
      else { assert ae[3].1.Some?; }
    }
  }

  /** A replacement with no argument set sends the empty object `{}`. */
  lemma EmptyReplacement(r: Replacement)
    requires !StrSet(r.quantity) && !StrSet(r.limitPrice) && !StrSet(r.stopPrice) && !StrSet(r.orderType)
    requires !HasReplaceAdvanced(r)
    ensures ReplacePayload(r) == map[]
  {
    ReplacePayloadContents(r);
  }

  /** The request `replace_order` and `areplace_order` issue. */
  datatype OrderRequest = OrderRequest(httpMethod: string, endpoint: string, payload: map<string, Json>)

  const OrdersEndpoint := "brokerage/accounts/orders/"

  /** A `PUT` of the replacement payload to the order's own endpoint. */
  function ReplaceOrderRequest(orderId: string, r: Replacement): (req: OrderRequest)
    ensures req.httpMethod == "PUT"
    ensures |req.endpoint| == |OrdersEndpoint| + |orderId|
    ensures req.endpoint[..|OrdersEndpoint|] == OrdersEndpoint && req.endpoint[|OrdersEndpoint|..] == orderId
    ensures req.payload == ReplacePayload(r)
  {
    OrderRequest("PUT", OrdersEndpoint + orderId, ReplacePayload(r))
  }
}
