/** The streaming side of the dispatchers and of their consumers.

    - `_stream_request` / `_astream_request` (package) and `_astream_request`
      (root) read the response line by line: a non-200 status raises before
      anything is read, blank lines are skipped, every other line is decoded
      and yielded, and the first line that does not decode raises and ends
      the stream.
    - The consumers (`stream_positions`, `astream_positions`,
      `stream_tick_bars`, `astream_tick_bars` of the package) route every
      yielded object to exactly one handler by the first marker key it
      contains, and report a falsy object as "InvalidData".
    - The root client's `stream_tick_bars` reads the lines itself, reports an
      undecodable line as "InvalidJSON" to the error handler and goes on.

    JSON decoding is the parameter `parse` (`None` where `json.loads` raises
    `JSONDecodeError`).  A handler call is recorded as a `Call`; the model
    collects the calls and the exception that ends the loop, if any. */
module StreamReader {
  import opened Common
  import opened Json

  type Parser = string -> Option<Json>

  /** What a loop over a stream produces: the values it emitted, in order,
      and the exception that ended it (`None` when the lines ran out). */
  datatype Trace<T> = Trace(emitted: seq<T>, failure: Option<Error>)

  function Precede<T>(front: seq<T>, r: Trace<T>): Trace<T> {
    Trace(front + r.emitted, r.failure)
  }

  /** The response of a streaming request: its status, its body text (used
      in the error message) and its lines. */
  datatype StreamResponse = StreamResponse(status: int, text: string, lines: seq<string>)

  /** The values the line loop of the streaming dispatchers yields, and the
      exception it raises. */
  function Lines(lines: seq<string>, parse: Parser): Trace<Json>
    decreases |lines|
  {
    if |lines| == 0 then Trace([], None)
    else if lines[0] == "" then Lines(lines[1..], parse)
    else match parse(lines[0])
      case None => Trace([], Some(InvalidJson(lines[0])))
      case Some(v) => Precede([v], Lines(lines[1..], parse))
  }

  /** A streaming request: a non-200 status raises before any line is read. */
  function Stream(resp: StreamResponse, parse: Parser): Trace<Json> {
    if resp.status != 200 then Trace([], Some(RequestFailed(resp.status, resp.text)))
    else Lines(resp.lines, parse)
  }

  /** The line loop of `_stream_request` / `_astream_request`. */
  method ReadLines(lines: seq<string>, parse: Parser) returns (items: seq<Json>, failure: Option<Error>)
    ensures Trace(items, failure) == Lines(lines, parse)
  {
    items, failure := [], None;
    var i := 0;
    while i < |lines|
      invariant 0 <= i <= |lines|
      invariant Lines(lines, parse) == Precede(items, Lines(lines[i..], parse))
    {
      assert lines[i..][0] == lines[i] && lines[i..][1..] == lines[i + 1..];
      if lines[i] != "" {
        match parse(lines[i])
        case None =>
          failure := Some(InvalidJson(lines[i]));
          return;
        case Some(v) =>
          items := items + [v];
      }
      i := i + 1;
    }
    assert lines[i..] == [];
  }

  /** The non-blank lines, in order. */
  function NonBlank(lines: seq<string>): (r: seq<string>)
    ensures |r| <= |lines|
    ensures forall k :: 0 <= k < |r| ==> r[k] != ""
    decreases |lines|
  {
    if |lines| == 0 then []
    else if lines[0] == "" then NonBlank(lines[1..])
    else [lines[0]] + NonBlank(lines[1..])
  }

  /** Blank lines produce nothing: the stream is that of its non-blank lines. */
  lemma {:induction false} BlankLinesIgnored(lines: seq<string>, parse: Parser)
    ensures Lines(lines, parse) == Lines(NonBlank(lines), parse)
    decreases |lines|
  {
    if |lines| > 0 {
      BlankLinesIgnored(lines[1..], parse);
      if lines[0] != "" {
        var nb := NonBlank(lines);
        assert nb[0] == lines[0] && nb[1..] == NonBlank(lines[1..]);
      }
    }
  }

  /** When every non-blank line decodes, the stream ends without an error and
      yields exactly one value per non-blank line, in input order. */
  lemma {:induction false} AllValidYieldsAll(lines: seq<string>, parse: Parser)
    requires forall k :: 0 <= k < |lines| && lines[k] != "" ==> parse(lines[k]).Some?
    ensures Lines(lines, parse).failure.None?
    ensures |Lines(lines, parse).emitted| == |NonBlank(lines)|
    ensures forall k :: 0 <= k < |NonBlank(lines)| ==>
      parse(NonBlank(lines)[k]) == Some(Lines(lines, parse).emitted[k])
    decreases |lines|
  {
    if |lines| > 0 {
      assert forall k :: 0 <= k < |lines[1..]| ==> lines[1..][k] == lines[k + 1];
      AllValidYieldsAll(lines[1..], parse);
      if lines[0] != "" {
        var nb, out := NonBlank(lines), Lines(lines, parse).emitted;
        var rest := Lines(lines[1..], parse).emitted;
        assert out == [parse(lines[0]).value] + rest;
        assert nb == [lines[0]] + NonBlank(lines[1..]);
        forall k | 0 <= k < |nb| ensures parse(nb[k]) == Some(out[k]) {
          if k > 0 {
            assert nb[k] == NonBlank(lines[1..])[k - 1] && out[k] == rest[k - 1];
          }
        }
      }
    }
  }

  /** The first line that does not decode raises: the stream is what the lines
      before it yielded, then the error naming that line; nothing after it is
      read. */
  lemma {:induction false} FirstInvalidStops(before: seq<string>, bad: string, after: seq<string>, parse: Parser)
    requires forall k :: 0 <= k < |before| && before[k] != "" ==> parse(before[k]).Some?
    requires bad != "" && parse(bad).None?
    ensures Lines(before + [bad] + after, parse) == Trace(Lines(before, parse).emitted, Some(InvalidJson(bad)))
    decreases |before|
  {
    if |before| == 0 {
      assert before + [bad] + after == [bad] + after;
      assert ([bad] + after)[0] == bad;
    } else {
      var all := before + [bad] + after;
      assert all[0] == before[0] && all[1..] == before[1..] + [bad] + after;
      assert forall k :: 0 <= k < |before[1..]| ==> before[1..][k] == before[k + 1];
      FirstInvalidStops(before[1..], bad, after, parse);
    }
  }

  /** A non-200 stream yields nothing and raises with the status and body. */
  lemma NonOkYieldsNothing(resp: StreamResponse, parse: Parser)
    requires resp.status != 200
    ensures Stream(resp, parse) == Trace([], Some(RequestFailed(resp.status, resp.text)))
  {
  }

  // ---------------------------------------------------------------------
  // Routing decoded objects to handlers

  datatype Handler = OnHeartbeat | OnError | OnStatus | OnDeleted | OnData

  /** One handler call and the object it receives. */
  datatype Call = Call(handler: Handler, message: Json)

  /** Marker keys in the order the `if`/`elif` chain tests them. */
  type Markers = seq<(string, Handler)>

  /** `stream_positions` / `astream_positions`. */
  const PositionMarkers: Markers :=
    [("Heartbeat", OnHeartbeat), ("Error", OnError), ("StreamStatus", OnStatus), ("Deleted", OnDeleted)]

  /** The tick-bar streams of both clients. */
  const TickBarMarkers: Markers := [("Heartbeat", OnHeartbeat), ("Error", OnError)]

  /** What the error handler receives for a falsy decoded value. */
  const EmptyDataReport: Json :=
    JObj(map["Error" := JStr("InvalidData"), "Message" := JStr("Received empty data from the stream.")])

  /** The `if "Heartbeat" in data: … elif … else: data_handler(data)` chain:
      the handler of the first marker `data` contains, or the data handler.
      `in` on a number, bool or null raises `TypeError`, which nothing catches. */
  function Route(data: Json, markers: Markers): Result<Call>
    decreases |markers|
  {
    if |markers| == 0 then Ok(Call(OnData, data))
    else match PyIn(markers[0].0, data)
      case None => Err(NotAContainer)
      case Some(true) => Ok(Call(markers[0].1, data))
      case Some(false) => Route(data, markers[1..])
  }

  /** The package consumers' `if data: <chain> else: error_handler(...)`. */
  function Classify(data: Json, markers: Markers): Result<Call> {
    if Truthy(data) then Route(data, markers) else Ok(Call(OnError, EmptyDataReport))
  }

  /** The handler a value is routed to; `None` where routing raises. */
  function HandlerOf(data: Json, markers: Markers): Option<Handler> {
    match Classify(data, markers)
    case Ok(c) => Some(c.handler)
    case Err(_) => None
  }

  /** Priority, as an independent statement: an object goes to the handler of
      the first marker (in chain order) that is one of its keys, and to the
      data handler when it has none of them; it is passed on unchanged. */
  lemma {:induction false} RoutePriority(fields: map<string, Json>, markers: Markers)
    ensures (forall j :: 0 <= j < |markers| ==> markers[j].0 !in fields) ==>
      Route(JObj(fields), markers) == Ok(Call(OnData, JObj(fields)))
    ensures forall j :: 0 <= j < |markers| && markers[j].0 in fields && (forall k :: 0 <= k < j ==> markers[k].0 !in fields) ==>
      Route(JObj(fields), markers) == Ok(Call(markers[j].1, JObj(fields)))
    decreases |markers|
  {
    if |markers| > 0 {
      RoutePriority(fields, markers[1..]);
      assert forall j :: 1 <= j < |markers| ==> markers[1..][j - 1] == markers[j];
      forall j | 0 <= j < |markers| && markers[j].0 in fields && (forall k :: 0 <= k < j ==> markers[k].0 !in fields)
        ensures Route(JObj(fields), markers) == Ok(Call(markers[j].1, JObj(fields)))
      {
        if j > 0 {
          assert markers[0].0 !in fields;
          assert markers[1..][j - 1] == markers[j];
          assert forall k :: 0 <= k < j - 1 ==> markers[1..][k] == markers[k + 1];
        }
      }
    }
  }

  /** The positions classifier, in the source's terms: exactly one handler per
      object, Heartbeat before Error before StreamStatus before Deleted before
      data; an empty object goes to the error handler as "InvalidData". */
  lemma PositionsClassification(fields: map<string, Json>)
    ensures fields == map[] ==> Classify(JObj(fields), PositionMarkers) == Ok(Call(OnError, EmptyDataReport))
    ensures fields != map[] ==> Classify(JObj(fields), PositionMarkers).Ok?
    ensures fields != map[] ==> Classify(JObj(fields), PositionMarkers).value.message == JObj(fields)
    ensures fields != map[] ==>
      (HandlerOf(JObj(fields), PositionMarkers) == Some(OnHeartbeat) <==> "Heartbeat" in fields)
    ensures fields != map[] ==>
      (HandlerOf(JObj(fields), PositionMarkers) == Some(OnError) <==> "Heartbeat" !in fields && "Error" in fields)
    ensures fields != map[] ==>
      (HandlerOf(JObj(fields), PositionMarkers) == Some(OnStatus) <==>
         "Heartbeat" !in fields && "Error" !in fields && "StreamStatus" in fields)
    ensures fields != map[] ==>
      (HandlerOf(JObj(fields), PositionMarkers) == Some(OnDeleted) <==>
         "Heartbeat" !in fields && "Error" !in fields && "StreamStatus" !in fields && "Deleted" in fields)
    ensures fields != map[] ==>
      (HandlerOf(JObj(fields), PositionMarkers) == Some(OnData) <==>
         "Heartbeat" !in fields && "Error" !in fields && "StreamStatus" !in fields && "Deleted" !in fields)
  {
    if fields != map[] {
      assert |fields| > 0 by {
        var k :| k in fields;
      }
      RoutePriority(fields, PositionMarkers);
      var m := PositionMarkers;
      assert m[0].0 == "Heartbeat" && m[1].0 == "Error" && m[2].0 == "StreamStatus" && m[3].0 == "Deleted";
    }
  }

  /** Routing raises (nothing catches the `TypeError`) exactly on a value
      that is neither an object, a list nor a string, whatever the markers. */
  lemma {:induction false} RouteFails(data: Json, markers: Markers)
    requires |markers| > 0
    ensures Route(data, markers).Err? <==> !(data.JObj? || data.JArr? || data.JStr?)
    decreases |markers|
  {
    if |markers| > 1 && PyIn(markers[0].0, data) == Some(false) {
      RouteFails(data, markers[1..]);
    }
  }

  /** The package consumers raise only on a truthy non-container: a falsy
      value of any kind is reported instead. */
  lemma ClassifyFails(data: Json, markers: Markers)
    requires |markers| > 0
    ensures Classify(data, markers).Err? <==> Truthy(data) && !(data.JObj? || data.JArr? || data.JStr?)
  {
    RouteFails(data, markers);
  }

  /** The handler calls for the values a stream yields, up to the first
      value that cannot be routed.  With `reportEmpty` a falsy value goes to
      the error handler (the package consumers); without it, it is skipped
      (the root client's `astream_tick_bars`). */
  function RouteAll(items: seq<Json>, markers: Markers, reportEmpty: bool): Trace<Call>
    decreases |items|
  {
    if |items| == 0 then Trace([], None)
    else if !Truthy(items[0]) && !reportEmpty then RouteAll(items[1..], markers, reportEmpty)
    else match Classify(items[0], markers)
      case Err(e) => Trace([], Some(e))
      case Ok(c) => Precede([c], RouteAll(items[1..], markers, reportEmpty))
  }

  /** A consumer of a stream: the calls for what the stream yields; the
      loop ends with the routing error if one comes first, otherwise with the
      stream's own error. */
  function Consume(r: Trace<Json>, markers: Markers, reportEmpty: bool): Trace<Call> {
    var c := RouteAll(r.emitted, markers, reportEmpty);
    if c.failure.Some? then c else Trace(c.emitted, r.failure)
  }

  /** The loop of the package's stream consumers (`for data in
      self._stream_request(...)`): a handler call per value the stream
      yields, until the stream or the routing raises. */
  method ConsumeStream(resp: StreamResponse, parse: Parser, markers: Markers) returns (calls: seq<Call>, failure: Option<Error>)
    ensures Trace(calls, failure) == Consume(Stream(resp, parse), markers, true)
  {
    calls, failure := [], None;
    if resp.status != 200 {
      failure := Some(RequestFailed(resp.status, resp.text));
      return;
    }
    var items, streamFailure := ReadLines(resp.lines, parse);
    var i := 0;
    while i < |items|
      invariant 0 <= i <= |items|
      invariant RouteAll(items, markers, true) == Precede(calls, RouteAll(items[i..], markers, true))
    {
      assert items[i..][0] == items[i] && items[i..][1..] == items[i + 1..];
      match Classify(items[i], markers)
      case Err(e) =>
        failure := Some(e);
        return;
      case Ok(c) =>
        calls := calls + [c];
      i := i + 1;
    }
    assert items[i..] == [];
    failure := streamFailure;
  }

  /** The four-line stream of a heartbeat, a blank line, a bar and a line that
      is not JSON: one heartbeat call, one data call, then the error naming
      the bad line. */
  lemma HeartbeatBlankBarGarbage(parse: Parser, hb: string, bar: string)
    requires hb != "" && bar != ""
    requires parse(hb) == Some(JObj(map["Heartbeat" := JNum(1)]))
    requires parse(bar) == Some(JObj(map["Bar" := JStr("X")]))
    requires parse("not-json").None?
    ensures Consume(Stream(StreamResponse(200, "", [hb, "", bar, "not-json"]), parse), TickBarMarkers, true)
         == Trace([Call(OnHeartbeat, JObj(map["Heartbeat" := JNum(1)])), Call(OnData, JObj(map["Bar" := JStr("X")]))],
                Some(InvalidJson("not-json")))
  {
    var lines := [hb, "", bar, "not-json"];
    var heartbeat, barData := JObj(map["Heartbeat" := JNum(1)]), JObj(map["Bar" := JStr("X")]);
    assert lines[1..] == ["", bar, "not-json"] && lines[2..] == [bar, "not-json"] && lines[3..] == ["not-json"];
    assert ["not-json"][1..] == [];
    assert Lines(lines[3..], parse) == Trace([], Some(InvalidJson("not-json")));
    assert Lines(lines[2..], parse) == Trace([barData], Some(InvalidJson("not-json")));
    assert Lines(lines, parse) == Trace([heartbeat, barData], Some(InvalidJson("not-json")));
    assert "Heartbeat" != "Bar" && "Error" != "Bar";
    assert [heartbeat, barData][1..] == [barData] && [barData][1..] == [];
    assert Route(barData, TickBarMarkers[1..]) == Ok(Call(OnData, barData));
    assert Classify(heartbeat, TickBarMarkers) == Ok(Call(OnHeartbeat, heartbeat));
    assert Classify(barData, TickBarMarkers) == Ok(Call(OnData, barData));
    assert RouteAll([barData], TickBarMarkers, true) == Trace([Call(OnData, barData)], None);
  }

  // ---------------------------------------------------------------------
  // The root client's `stream_tick_bars`

  /** `repr()` of the undecodable line, which is a `bytes` value. */
  function BytesRepr(line: string): string {
    "b'" + line + "'"
  }

  /** What the error handler receives for an undecodable line. */
  function InvalidJsonReport(line: string): Json {
    JObj(map["Error" := JStr("InvalidJSON"),
             "Message" := JStr("The received data is not a valid json: \"" + BytesRepr(line) + "\"")])
  }

  /** The loop of the root `stream_tick_bars` over the response lines: blank
      lines are skipped, an undecodable line is reported and the loop goes on,
      a decoded value is routed (a `TypeError` from `in` escapes). */
  function LegacyTickBars(lines: seq<string>, parse: Parser): Trace<Call>
    decreases |lines|
  {
    if |lines| == 0 then Trace([], None)
    else if lines[0] == "" then LegacyTickBars(lines[1..], parse)
    else match parse(lines[0])
      case None => Precede([Call(OnError, InvalidJsonReport(lines[0]))], LegacyTickBars(lines[1..], parse))
      case Some(d) =>
        match Route(d, TickBarMarkers)
        case Err(e) => Trace([], Some(e))
        case Ok(c) => Precede([c], LegacyTickBars(lines[1..], parse))
  }

  function LegacyTickBarsStream(resp: StreamResponse, parse: Parser): Trace<Call> {
    if resp.status != 200 then Trace([], Some(RequestFailed(resp.status, resp.text)))
    else LegacyTickBars(resp.lines, parse)
  }

  method LegacyStreamTickBars(resp: StreamResponse, parse: Parser) returns (calls: seq<Call>, failure: Option<Error>)
    ensures Trace(calls, failure) == LegacyTickBarsStream(resp, parse)
  {
    calls, failure := [], None;
    if resp.status != 200 {
      failure := Some(RequestFailed(resp.status, resp.text));
      return;
    }
    var lines := resp.lines;
    var i := 0;
    while i < |lines|
      invariant 0 <= i <= |lines|
      invariant LegacyTickBars(lines, parse) == Precede(calls, LegacyTickBars(lines[i..], parse))
    {
      assert lines[i..][0] == lines[i] && lines[i..][1..] == lines[i + 1..];
      if lines[i] != "" {
        match parse(lines[i])
        case None =>
          calls := calls + [Call(OnError, InvalidJsonReport(lines[i]))];
        case Some(data) =>
          match Route(data, TickBarMarkers)
          case Err(e) =>
            failure := Some(e);
            return;
          case Ok(c) =>
            calls := calls + [c];
      }
      i := i + 1;
    }
    assert lines[i..] == [];
  }

  /** The root loop never stops on undecodable input: when every line that
      decodes is an object, it makes exactly one handler call per non-blank
      line, in order, and ends without an error; a bad line becomes an
      "InvalidJSON" report at its position, and a decoded line the call its
      object is routed to. */
  lemma {:induction false} LegacyTickBarsTotal(lines: seq<string>, parse: Parser)
    requires forall k :: 0 <= k < |lines| && lines[k] != "" && parse(lines[k]).Some? ==> parse(lines[k]).value.JObj?
    ensures LegacyTickBars(lines, parse).failure.None?
    ensures |LegacyTickBars(lines, parse).emitted| == |NonBlank(lines)|
    ensures forall k :: 0 <= k < |NonBlank(lines)| && parse(NonBlank(lines)[k]).None? ==>
      LegacyTickBars(lines, parse).emitted[k] == Call(OnError, InvalidJsonReport(NonBlank(lines)[k]))
    ensures forall k :: 0 <= k < |NonBlank(lines)| && parse(NonBlank(lines)[k]).Some? ==>
      && Route(parse(NonBlank(lines)[k]).value, TickBarMarkers).Ok?
      && LegacyTickBars(lines, parse).emitted[k] == Route(parse(NonBlank(lines)[k]).value, TickBarMarkers).value
    decreases |lines|
  {
    if |lines| > 0 {
      assert forall k :: 0 <= k < |lines[1..]| ==> lines[1..][k] == lines[k + 1];
      LegacyTickBarsTotal(lines[1..], parse);
      if lines[0] != "" {
        var nb, out := NonBlank(lines), LegacyTickBars(lines, parse).emitted;
        var rest := LegacyTickBars(lines[1..], parse).emitted;
        assert nb == [lines[0]] + NonBlank(lines[1..]);
        if parse(lines[0]).Some? {
          RouteObject(parse(lines[0]).value.fields, TickBarMarkers);
        }
        assert out[1..] == rest;
        forall k | 0 <= k < |nb| && parse(nb[k]).None? ensures out[k] == Call(OnError, InvalidJsonReport(nb[k])) {
          if k > 0 {
            assert nb[k] == NonBlank(lines[1..])[k - 1] && out[k] == rest[k - 1];
          }
        }
        forall k | 0 <= k < |nb| && parse(nb[k]).Some?
          ensures Route(parse(nb[k]).value, TickBarMarkers).Ok? && out[k] == Route(parse(nb[k]).value, TickBarMarkers).value
        {
          if k > 0 {
            assert nb[k] == NonBlank(lines[1..])[k - 1] && out[k] == rest[k - 1];
          }
        }
      }
    }
  }

  /** The root `astream_tick_bars` over the root `_astream_request`: falsy
      values are skipped without a report. */
  function LegacyAsyncTickBars(resp: StreamResponse, parse: Parser): Trace<Call> {
    Consume(Stream(resp, parse), TickBarMarkers, false)
  }

  /** The truthy values, in order. */
  function Truthies(items: seq<Json>): (r: seq<Json>)
    ensures |r| <= |items|
    ensures forall k :: 0 <= k < |r| ==> Truthy(r[k])
    ensures forall x :: x in r ==> x in items
    ensures (forall k :: 0 <= k < |items| ==> !Truthy(items[k])) ==> r == []
    decreases |items|
  {
    if |items| == 0 then []
    else if Truthy(items[0]) then [items[0]] + Truthies(items[1..])
    else Truthies(items[1..])
  }

  /** Skipping a falsy value is the same as never having received it. */
  lemma {:induction false} SkipIsFilter(items: seq<Json>, markers: Markers)
    ensures RouteAll(items, markers, false) == RouteAll(Truthies(items), markers, true)
    decreases |items|
  {
    if |items| > 0 {
      SkipIsFilter(items[1..], markers);
      if Truthy(items[0]) {
        var t := Truthies(items);
        assert t[0] == items[0] && t[1..] == Truthies(items[1..]);
      }
    }
  }

  /** An object is always routed: `in` is defined on it. */
  lemma {:induction false} RouteObject(fields: map<string, Json>, markers: Markers)
    ensures Route(JObj(fields), markers).Ok?
    decreases |markers|
  {
    if |markers| > 0 {
      RouteObject(fields, markers[1..]);
    }
  }

  /** A stream of objects is routed in full: one call per value, in order,
      the k-th being the classification of the k-th value. */
  lemma {:induction false} RouteAllObjects(items: seq<Json>, markers: Markers)
    requires forall k :: 0 <= k < |items| ==> items[k].JObj?
    ensures RouteAll(items, markers, true).failure.None?
    ensures |RouteAll(items, markers, true).emitted| == |items|
    ensures forall k :: 0 <= k < |items| ==>
      Classify(items[k], markers).Ok? && RouteAll(items, markers, true).emitted[k] == Classify(items[k], markers).value
    decreases |items|
  {
    if |items| > 0 {
      assert forall k :: 0 <= k < |items[1..]| ==> items[1..][k] == items[k + 1];
      RouteAllObjects(items[1..], markers);
      RouteObject(items[0].fields, markers);
      var out, rest := RouteAll(items, markers, true).emitted, RouteAll(items[1..], markers, true).emitted;
      assert out == [Classify(items[0], markers).value] + rest;
      forall k | 0 <= k < |items| ensures Classify(items[k], markers).Ok? && out[k] == Classify(items[k], markers).value {
        if k > 0 {
          assert items[k] == items[1..][k - 1] && out[k] == rest[k - 1];
        }
      }
    }
  }

  /** The package consumers over a stream whose values are all objects: one
      handler call per value, in order, the k-th being the classification of
      the k-th value (an empty object gives the "InvalidData" report), and the
      loop ends with the stream's own exception, if any. */
  lemma PackageConsumerCalls(resp: StreamResponse, parse: Parser, markers: Markers)
    requires forall k :: 0 <= k < |Stream(resp, parse).emitted| ==> Stream(resp, parse).emitted[k].JObj?
    ensures Consume(Stream(resp, parse), markers, true).failure == Stream(resp, parse).failure
    ensures |Consume(Stream(resp, parse), markers, true).emitted| == |Stream(resp, parse).emitted|
    ensures forall k :: 0 <= k < |Stream(resp, parse).emitted| ==>
      && Classify(Stream(resp, parse).emitted[k], markers).Ok?
      && Consume(Stream(resp, parse), markers, true).emitted[k] == Classify(Stream(resp, parse).emitted[k], markers).value
  {
    RouteAllObjects(Stream(resp, parse).emitted, markers);
  }

  /** The root `astream_tick_bars` makes the calls the package consumer would
      make for the truthy values alone, and ends with the stream's exception
      or the routing error. */
  lemma LegacyAsyncTickBarsFilters(resp: StreamResponse, parse: Parser)
    ensures LegacyAsyncTickBars(resp, parse)
         == Consume(Trace(Truthies(Stream(resp, parse).emitted), Stream(resp, parse).failure), TickBarMarkers, true)
  {
    SkipIsFilter(Stream(resp, parse).emitted, TickBarMarkers);
  }

  /** Skipped values leave no call behind: a stream of falsy values makes no
      call, and the loop ends with the stream's own exception, if any. */
  lemma SkippedValuesLeaveNoCall(resp: StreamResponse, parse: Parser)
    requires forall k :: 0 <= k < |Stream(resp, parse).emitted| ==> !Truthy(Stream(resp, parse).emitted[k])
    ensures LegacyAsyncTickBars(resp, parse) == Trace([], Stream(resp, parse).failure)
  {
    var vs := Stream(resp, parse).emitted;
    LegacyAsyncTickBarsFilters(resp, parse);
  }

  /** Over a stream of objects, the root `astream_tick_bars` routes every
      truthy value, in order, to the handler its keys select, and ends with
      the stream's exception, if any. */
  lemma LegacyAsyncTickBarsObjects(resp: StreamResponse, parse: Parser)
    requires forall k :: 0 <= k < |Stream(resp, parse).emitted| ==> Stream(resp, parse).emitted[k].JObj?
    ensures LegacyAsyncTickBars(resp, parse).failure == Stream(resp, parse).failure
    ensures |LegacyAsyncTickBars(resp, parse).emitted| == |Truthies(Stream(resp, parse).emitted)|
    ensures forall k :: 0 <= k < |Truthies(Stream(resp, parse).emitted)| ==>
      && Route(Truthies(Stream(resp, parse).emitted)[k], TickBarMarkers).Ok?
      && LegacyAsyncTickBars(resp, parse).emitted[k] == Route(Truthies(Stream(resp, parse).emitted)[k], TickBarMarkers).value
  {
    var vs := Stream(resp, parse).emitted;
    var ts := Truthies(vs);
    LegacyAsyncTickBarsFilters(resp, parse);
    forall k | 0 <= k < |ts| ensures ts[k].JObj? {
      assert ts[k] in vs;
    }
    RouteAllObjects(ts, TickBarMarkers);
  }
}
