/** The parameter logic of the market-data requests: `get_bars` of the
    package client and of the older root client, and the input validation of
    `stream_tick_bars` / `astream_tick_bars` in both.

    The parameters are the dictionary that `get_bars` hands to the HTTP layer
    as its query (values are
    modelled as `Json`); datetimes are `Instant`s whose rendering is a
    symbolic leaf (`JIso` for `isoformat()` in UTC, `JStrfZ` for the root
    client's `strftime("%Y-%m-%dT%H:%M:%SZ")`, `JDate` for a datetime object
    passed through unrendered). */
module BarRequests {
  import opened Common
  import opened Json

  const BarsEndpointPrefix := "marketdata/barcharts/"
  const TickBarsEndpointPrefix := "marketdata/stream/barcharts/"

  const MaxInterval := 64999
  const MaxBarsBack := 57600

  /** The arguments of `get_bars`; `interval`, `unit` and `session_template`
      have defaults in the source (1, "Daily", "Default") that a caller supplies here. */
  datatype BarsQuery = BarsQuery(
    symbol: string,
    interval: int,
    unit: string,
    barsBack: Option<int>,
    firstDate: Option<Instant>,
    lastDate: Option<Instant>,
    sessionTemplate: string)

  /** The `bars_back` that is sent when no first date is given: the caller's
      truthy value, or the default 1. */
  function EffectiveBarsBack(q: BarsQuery): int {
    if IntSet(q.barsBack) then q.barsBack.value else 1
  }

  /** The `params` of the package's `get_bars`.  A truthy
      `bars_back` together with a first date is refused, and nothing else;
      otherwise the parameters hold the three fixed keys, exactly one of
      `firstdate` / `barsback` (the first date wins; `barsback` is the caller's
      truthy value or 1, never 0), and `lastdate` exactly when a last date is
      given. */
  function BarsParams(q: BarsQuery): (r: Result<map<string, Json>>)
    ensures r.Err? <==> IntSet(q.barsBack) && q.firstDate.Some?
    ensures r.Err? ==> r.error == MutuallyExclusive
    ensures r.Ok? ==>
      var p := r.value;
      && p.Keys == {"interval", "unit", "sessiontemplate"}
                   + (if q.firstDate.Some? then {"firstdate"} else {"barsback"})
                   + (if q.lastDate.Some? then {"lastdate"} else {})
      && p["interval"] == JNum(q.interval) && p["unit"] == JStr(q.unit)
      && p["sessiontemplate"] == JStr(q.sessionTemplate)
      && ("firstdate" in p <==> q.firstDate.Some?)
      && ("barsback" in p <==> q.firstDate.None?)
      && (q.firstDate.Some? ==> p["firstdate"] == JIso(q.firstDate.value))
      && (q.firstDate.None? ==> p["barsback"] == JNum(EffectiveBarsBack(q)) && EffectiveBarsBack(q) != 0)
      && (q.firstDate.None? && !IntSet(q.barsBack) ==> p["barsback"] == JNum(1))
      && ("lastdate" in p <==> q.lastDate.Some?)
      && (q.lastDate.Some? ==> p["lastdate"] == JIso(q.lastDate.value))
  {
    if IntSet(q.barsBack) && q.firstDate.Some? then Err(MutuallyExclusive)
    else
      var base := map["interval" := JNum(q.interval), "unit" := JStr(q.unit), "sessiontemplate" := JStr(q.sessionTemplate)];
      var dated :=
        if q.firstDate.Some? then base["firstdate" := JIso(q.firstDate.value)]
        else base["barsback" := JNum(EffectiveBarsBack(q))];
      Ok(if q.lastDate.Some? then dated["lastdate" := JIso(q.lastDate.value)] else dated)
  }

  /** The `params` of the root client's `get_bars`.  It raises in the same
      case as the package; it always sends a `lastdate` key (a raw datetime, or
      `None`), renders the first date with `strftime` instead of `isoformat`,
      and sends exactly one of `firstdate` / `barsback`. */
  function LegacyBarsParams(q: BarsQuery): (r: Result<map<string, Json>>)
    ensures r.Err? <==> BarsParams(q).Err?
    ensures r.Err? ==> r.error == MutuallyExclusive
    ensures r.Ok? ==>
      var p := r.value;
      && p.Keys == {"interval", "unit", "lastdate", "sessiontemplate"} + (if q.firstDate.Some? then {"firstdate"} else {"barsback"})
      && (q.lastDate.None? ==> p["lastdate"] == JNull)
      && (q.lastDate.Some? ==> p["lastdate"] == JDate(q.lastDate.value))
      && (q.firstDate.Some? ==> p["firstdate"] == JStrfZ(q.firstDate.value))
      && (q.firstDate.None? ==> p["barsback"] == JNum(EffectiveBarsBack(q)))
  {
    if IntSet(q.barsBack) && q.firstDate.Some? then Err(MutuallyExclusive)
    else
      var base := map["interval" := JNum(q.interval), "unit" := JStr(q.unit),
                       "lastdate" := (if q.lastDate.Some? then JDate(q.lastDate.value) else JNull),
                       "sessiontemplate" := JStr(q.sessionTemplate)];
      Ok(if q.firstDate.Some? then base["firstdate" := JStrfZ(q.firstDate.value)]
         else base["barsback" := JNum(EffectiveBarsBack(q))])
  }

  /** The two clients agree on every key but the dates. */
  lemma BarsParamsAgree(q: BarsQuery)
    requires BarsParams(q).Ok?
    ensures forall k :: k in {"interval", "unit", "sessiontemplate", "barsback"} ==>
      (k in BarsParams(q).value <==> k in LegacyBarsParams(q).value)
      && (k in BarsParams(q).value ==> BarsParams(q).value[k] == LegacyBarsParams(q).value[k])
  {
  }

  /** The value `get_bars` returns: `.get('Bars', [])` of the decoded
      response, which fails when the response is not an object. */
  function BarsOf(body: Json): (r: Result<Json>)
    ensures body.JObj? <==> r.Ok?
    ensures body.JObj? && "Bars" !in body.fields ==> r == Ok(JArr([]))
    ensures body.JObj? && "Bars" in body.fields ==> r == Ok(body.fields["Bars"])
  {
    match body
    case JObj(fields) => Ok(if "Bars" in fields then fields["Bars"] else JArr([]))
    case _ => Err(NotAnObject)
  }

  // ---------------------------------------------------------------------
  // Tick-bar streams

  /** The range checks of `stream_tick_bars` / `astream_tick_bars` (both
      clients), in source order: the interval first, then a truthy `bars_back`. */
  function TickBarsCheck(interval: int, barsBack: Option<int>): Option<Error> {
    if !(1 <= interval <= MaxInterval) then Some(IntervalOutOfRange)
    else if IntSet(barsBack) && !(1 <= barsBack.value <= MaxBarsBack) then Some(BarsBackOutOfRange)
    else None
  }

  /** The `params` of the package's tick-bar streams, after the checks.  An
      interval outside [1, 64999] is refused whatever `bars_back` is; a truthy
      `bars_back` outside [1, 57600] is refused; `None` and 0 are not checked
      at all.  Accepted parameters carry `barsback` exactly when it is truthy. */
  function TickBarsParams(interval: int, unit: string, barsBack: Option<int>, sessionTemplate: string): (r: Result<map<string, Json>>)
    ensures !(1 <= interval <= MaxInterval) ==> r == Err(IntervalOutOfRange)
    ensures 1 <= interval <= MaxInterval && IntSet(barsBack) && !(1 <= barsBack.value <= MaxBarsBack) ==> r == Err(BarsBackOutOfRange)
    ensures r.Ok? <==> 1 <= interval <= MaxInterval && (!IntSet(barsBack) || 1 <= barsBack.value <= MaxBarsBack)
    ensures r.Ok? ==> ("barsback" in r.value <==> IntSet(barsBack))
    ensures r.Ok? && IntSet(barsBack) ==> r.value["barsback"] == JNum(barsBack.value)
    ensures r.Ok? ==> r.value.Keys <= {"interval", "unit", "sessiontemplate", "barsback"}
    ensures r.Ok? ==> {"interval", "unit", "sessiontemplate"} <= r.value.Keys
    ensures r.Ok? ==> r.value["interval"] == JNum(interval) && r.value["unit"] == JStr(unit) && r.value["sessiontemplate"] == JStr(sessionTemplate)
  {
    match TickBarsCheck(interval, barsBack)
    case Some(e) => Err(e)
    case None =>
      var base := map["interval" := JNum(interval), "unit" := JStr(unit), "sessiontemplate" := JStr(sessionTemplate)];
      Ok(if IntSet(barsBack) then base["barsback" := JNum(barsBack.value)] else base)
  }

  /** A zero `bars_back` is falsy: it passes the check and is not sent. */
  lemma ZeroBarsBackIgnored(interval: int, unit: string, sessionTemplate: string)
    requires 1 <= interval <= MaxInterval
    ensures TickBarsParams(interval, unit, Some(0), sessionTemplate)
         == TickBarsParams(interval, unit, None, sessionTemplate)
    ensures TickBarsParams(interval, unit, None, sessionTemplate).Ok?
  {
  }
}
