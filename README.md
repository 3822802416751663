# TradeStation SDK core in Dafny

This project models the core of the TradeStation Python SDK:
- the package client in `tradestation/tradestation.py`;
- the older single-file client in `tradestation.py`.

It covers:
- the JSON payloads the clients send for orders and order replacements;
- the parameter logic and input checks of the bar requests;
- how the request dispatchers pick the URL and the `Authorization` header;
- the line loop of the streaming dispatchers;
- the classifier that routes each streamed object to one handler;
- both clients' OAuth token life cycle: environment loading, the authorization URL, the redirect callback, the code exchange, token refresh, and the refresh loop's sleep.

The network, the clock and JSON decoding are parameters. Every HTTP call is replaced by the reply it would get: a status, a body text and the decoded fields the code reads. A streaming response is a status plus a sequence of lines, and `json.loads` is a function `parse` from a line to an optional value. The current time is an integer number of seconds.

Modules:
- `Common`: `Option`, `Result` and the error taxonomy. Each error constructor names one raise site of the source.
- `Json`: decoded and encoded values, Python truthiness, Python's `in`, and `Collect`, the dictionary that a chain of conditional assignments `d[k] = v` leaves behind.
- `Text`: `int()`/`str()` on integers, `split`/`join`, and `quote_plus`/`urlencode` with their ASCII inverse.
- `OrderPayload`: `Order.to_dict` and the payload of `replace_order` / `areplace_order`. The method bodies fill the dictionaries step by step, in the source's order. Each method is proved equal to a `Collect` over the source's list of conditional assignments, and lemmas state which keys appear, when, and with which values.
- `BarRequests`: the `params` of `get_bars` (both clients) and of `stream_tick_bars` / `astream_tick_bars`.
- `Dispatcher`: base URLs, header rules, URL resolution and response handling of `_send_request` / `_asend_request` / `_stream_request`, and the comma-joining of account and order ids.
- `StreamReader`:
  - the streaming line loop (`ReadLines`), specified by `Lines`;
  - the package consumers (`ConsumeStream`), specified by `Consume`;
  - the marker chain (`Route`);
  - the root client's `stream_tick_bars` loop (`LegacyStreamTickBars`), which reports bad lines instead of raising.
- `TokenManager`: the package client's token transitions as functions on a `TokenState`. The class `Session` holds the same state in fields, and each of its methods is proved to make the change its function describes.
- `LegacyClient`: the root client's environment loading, authorization URL, `parse_qs`, `do_GET`, token update and refresh, with the class `LegacySession`.

Token behaviours of the code that a reader might not expect:
- **Refresh loop sleep.** The sleep is `timedelta.seconds`, which wraps into [0, 86400) (see Findings).
- **Refresh token after a refresh.** The package's refresh never reads `refresh_token` from the body, so the held refresh token is kept. The root client's `_handle_token_response` reads `body['refresh_token']` and raises `KeyError` when it is absent.
- **Expiry margin.** The package stores `now + expires_in` and applies `refresh_token_margin` only in the loop's sleep. The root client stores `now + expires_in − 5`.
- **Partial updates.** The access token is assigned before `body['refresh_token']` is read, so a `KeyError` there leaves the new access token stored.

## Model

| member | source | states |
|---|---|---|
| Json.PyIn | tradestation/tradestation.py:518-523 | `key in data` on an object is key membership. It is defined (not a `TypeError`) exactly for objects, lists and strings. |
| Json.CollectAt | tradestation/tradestation.py:125-147 | After a chain of distinct-key conditional assignments, a key is present exactly when its assignment fired, with the assigned value. |
| Json.CollectKeys | tradestation/tradestation.py:125-147 | The keys of the result are exactly the keys whose assignment fired. |
| Json.CollectEmpty | tradestation/tradestation.py:149-150 | The result is `{}` exactly when no assignment fired. |
| Json.CollectSet | tradestation/tradestation.py:138-139 | Making assignment i fire with value v sets exactly key i to v when i lies within the chain's prefix. Otherwise the result is unchanged. |
| Text.ParseIntToString | tradestation.py:58 | `int(str(i)) == i` for every integer. |
| Text.SplitJoin | tradestation/tradestation.py:583-585 | Splitting a comma-join of comma-free parts gives the parts back. |
| Text.UnquoteEscapeForms | tradestation.py:22 | Unquoting accepts hex escapes in either case (`%2f` and `%2F` give `/`), and keeps an invalid or cut-off escape as it is. |
| Text.UnquoteQuotePlus | tradestation.py:22 | Unquoting what `quote_plus` wrote gives back ASCII text. |
| Text.UrlEncodeSplits | tradestation.py:65-75 | A `urlencode` result splits on `&` into one item per pair, and each item splits on `=` into the quoted key and value. |
| OrderPayload.BuildAdvancedOptions | tradestation/tradestation.py:125-147 | The `advanced_options` chain leaves the dictionary that `AdvancedOptions` describes. |
| OrderPayload.AddAdvancedRest | tradestation/tradestation.py:138-147 | The last five `if`s of the chain complete that dictionary from its first six entries. |
| OrderPayload.ToDict | tradestation/tradestation.py:105-155 | `to_dict` builds exactly `OrderDict(o)`: the seven fixed keys, `TimeInForce` with an optional `Expiration`, and the optional keys in source order. |
| OrderPayload.AdvancedOptionsContents | tradestation/tradestation.py:125-147 | Each of the eleven advanced options is present exactly when its field is not `None` (so `False` is kept), with that field's value. |
| OrderPayload.AdvancedOptionsShape | tradestation/tradestation.py:125-150 | `AdvancedOptions` is non-empty exactly when some advanced field is set, and holds no other keys. |
| OrderPayload.OrderDictRequired | tradestation/tradestation.py:107-119 | AccountID, Symbol, Quantity, OrderType, TradeAction, Route and TimeInForce are always present with the order's values. Route is `null` when the route is `None`. TimeInForce holds Duration, plus Expiration exactly when an expiration is given. |
| OrderPayload.OrderDictOptional | tradestation/tradestation.py:120-153 | LimitPrice, StopPrice and OrderConfirmID are present exactly when truthy (so `""` is left out). AdvancedOptions is present exactly when some advanced field is set. No other keys appear. |
| OrderPayload.RequiredOnlyOrder | tradestation/tradestation.py:107-119 | An order with no optional field set serialises to exactly the seven required keys, with TimeInForce holding only Duration. |
| OrderPayload.AddPegValue | tradestation/tradestation.py:138-139 | Setting a peg value changes AdvancedOptions by exactly `PegValue`, and leaves the other advanced options as they were. |
| OrderPayload.TimeRuleObjects | tradestation/tradestation.py:1045-1047 | The rule list has exactly as many objects as there are time rules. |
| OrderPayload.BuildReplaceAdvanced | tradestation/tradestation.py:1025-1047 | The nested objects of `replace_order` are built as `ReplaceAdvanced` describes. |
| OrderPayload.BuildReplacePayload | tradestation/tradestation.py:992-1050 | The `replace_order` payload is built as `ReplacePayload` describes. |
| OrderPayload.ReplaceAdvancedContents | tradestation/tradestation.py:1025-1047 | The nested objects:<br>- ShowOnlyQuantity exists exactly when truthy.<br>- TrailingStop exists exactly when the amount or the percent is truthy, and holds only those two.<br>- MarketActivationRules and TimeActivationRules each exist exactly when ClearAll is not `None` or the rules are non-empty.<br>- The time rules keep the input order: object i is `{"TimeUtc": <rule i>}`. |
| OrderPayload.ReplacePayloadContents | tradestation/tradestation.py:1015-1050 | Quantity, LimitPrice, StopPrice and OrderType are present exactly when truthy. AdvancedOptions is present exactly when non-empty. No other keys appear. |
| OrderPayload.EmptyReplacement | tradestation/tradestation.py:1015-1050 | A replacement with nothing set sends `{}`. |
| OrderPayload.ReplaceOrderRequest | tradestation/tradestation.py:1052 | A `PUT` to `brokerage/accounts/orders/<order_id>` carrying the replacement payload. |
| BarRequests.BarsParams | tradestation/tradestation.py:437-454 | Raises MutuallyExclusive exactly when `bars_back` is truthy and `first_date` is given. Otherwise the params hold exactly one of firstdate/barsback, and lastdate exactly when given. barsback defaults to 1 and is never 0. |
| BarRequests.LegacyBarsParams | tradestation.py:187-201 | The same check. lastdate is always present (`null` when absent, a datetime otherwise), and firstdate is the `strftime` rendering. |
| BarRequests.BarsParamsAgree | tradestation.py:187-201 | Both clients send the same interval, unit, session template and barsback. |
| BarRequests.BarsOf | tradestation/tradestation.py:454 | `.get('Bars', [])` gives the Bars entry or `[]`. A non-object body is an AttributeError. |
| BarRequests.TickBarsParams | tradestation/tradestation.py:503-514 | Raises on an interval outside [1, 64999], or a truthy `bars_back` outside [1, 57600], before anything else. Otherwise barsback is present exactly when truthy. |
| BarRequests.ZeroBarsBackIgnored | tradestation/tradestation.py:505-514 | A `bars_back` of 0 is accepted and sends no barsback, the same as `None`. |
| Dispatcher.ApiUrl | tradestation/tradestation.py:167 | The demo flag selects the simulation base URL, otherwise the live one. |
| Dispatcher.BearerHeader | tradestation/tradestation.py:313 | The default headers are exactly `Authorization`, holding `Bearer <token>`, or `Bearer None` when there is no token. |
| Dispatcher.SyncHeaders | tradestation/tradestation.py:312-313 | Given headers are kept. Otherwise the bearer header is added, whatever the token. |
| Dispatcher.GuardedHeaders | tradestation/tradestation.py:345-346 | The bearer header is added only when no headers are given and the token is truthy. Otherwise the headers pass through unchanged. |
| Dispatcher.HeaderRulesDiffer | tradestation/tradestation.py:312-313 | The two rules differ exactly when no headers are given and the token is falsy. With a `None` token the synchronous rule sends `Bearer None`. |
| Dispatcher.EndpointUrl | tradestation/tradestation.py:311 | The URL is the base URL, `/`, and the endpoint. |
| Dispatcher.ResolveUrl | tradestation/tradestation.py:340-343 | A truthy url wins. Otherwise the url comes from the endpoint. With neither it raises MissingEndpoint. |
| Dispatcher.PrepareSync | tradestation/tradestation.py:311-315 | `_send_request` targets the endpoint URL. It sends the given headers when they are truthy, and the bearer header otherwise. |
| Dispatcher.PrepareAsync | tradestation/tradestation.py:340-348 | `_asend_request` fails exactly when URL resolution fails. Otherwise it uses the resolved URL and the guarded header rule. |
| Dispatcher.PrepareStream | tradestation/tradestation.py:374-378 | `_stream_request` targets the endpoint URL with the guarded header rule. |
| Dispatcher.Outcome | tradestation/tradestation.py:316-319 | A 200 reply gives the decoded body, or raises InvalidJson when the body does not decode. Any other status raises RequestFailed with the status and text. |
| Dispatcher.CommaJoinSplits | tradestation/tradestation.py:583-585 | The joined id path segment splits back into the ids. |
| Dispatcher.CommaJoinOne | tradestation/tradestation.py:583-584 | A single id string is used as it is. |
| StreamReader.ReadLines | tradestation/tradestation.py:379-386 | The line loop yields exactly what `Lines` describes, and raises what it raises. |
| StreamReader.BlankLinesIgnored | tradestation/tradestation.py:381 | Blank lines produce nothing: the stream equals the stream of its non-blank lines. |
| StreamReader.AllValidYieldsAll | tradestation/tradestation.py:380-384 | When every non-blank line decodes, the stream ends without error and yields one value per non-blank line, in order. |
| StreamReader.FirstInvalidStops | tradestation/tradestation.py:385-386 | The first undecodable line raises InvalidJson naming it. Only the earlier lines' values are yielded, and nothing after it. |
| StreamReader.NonOkYieldsNothing | tradestation/tradestation.py:387-388 | A non-200 stream raises with the status and body before yielding anything. |
| StreamReader.RoutePriority | tradestation/tradestation.py:750-760 | An object goes to the handler of the first marker, in chain order, that is one of its keys. With none it goes to the data handler. The object is passed on unchanged. |
| StreamReader.PositionsClassification | tradestation/tradestation.py:749-763 | Exactly one handler per object, in priority Heartbeat > Error > StreamStatus > Deleted > data. `{}` goes to the error handler with "InvalidData". |
| StreamReader.RouteFails | tradestation/tradestation.py:518-523 | The chain raises `TypeError` exactly on a value that is not an object, list or string. |
| StreamReader.ClassifyFails | tradestation/tradestation.py:517-526 | The consumers raise only on a truthy non-container. Falsy values of every kind are reported instead. |
| StreamReader.ConsumeStream | tradestation/tradestation.py:516-526 | The consumer loop makes exactly the handler calls `Consume` describes, and ends with the exception it describes. |
| StreamReader.RouteObject | tradestation/tradestation.py:517-523 | An object is always routed: the marker chain never raises on it. |
| StreamReader.RouteAllObjects | tradestation/tradestation.py:516-526 | Values that are all objects are routed in full: one call per value, in order, the k-th being the k-th value's classification. |
| StreamReader.PackageConsumerCalls | tradestation/tradestation.py:516-526 | When every value a stream yields is an object, the package consumer makes one call per value, in order. Call k is the classification of value k, so `{}` gets the InvalidData report. The loop ends with the stream's own exception (InvalidJson or RequestFailed), if any. |
| StreamReader.HeartbeatBlankBarGarbage | tradestation/tradestation.py:516-526 | A heartbeat, a blank line, a bar and a non-JSON line give one heartbeat call and one data call, then InvalidJson for the last line. |
| StreamReader.LegacyStreamTickBars | tradestation.py:240-259 | The root loop makes exactly the calls `LegacyTickBars` describes. |
| StreamReader.LegacyTickBarsTotal | tradestation.py:245-259 | The root loop never raises on bad JSON. If every decoded line is an object, it makes one call per non-blank line, in order. Each bad line becomes an "InvalidJSON" report, and each decoded line the call its object is routed to. |
| StreamReader.SkipIsFilter | tradestation.py:294-302 | Skipping falsy values silently is the same as routing only the truthy ones. |
| StreamReader.LegacyAsyncTickBarsFilters | tradestation.py:261-305 | The root `astream_tick_bars` makes exactly the package consumer's calls for the truthy values alone, and ends with the stream's exception or the routing error. |
| StreamReader.SkippedValuesLeaveNoCall | tradestation.py:294-302 | When the stream yields only falsy values, the root `astream_tick_bars` makes no call, and ends with the stream's own exception, if any. |
| StreamReader.LegacyAsyncTickBarsObjects | tradestation.py:261-305 | Over a stream of objects, every truthy value is routed in order to the handler its keys select, one call each. The loop ends with the stream's exception, if any. |
| TokenManager.ExchangeForm | tradestation/tradestation.py:209-215 | The exchange form holds exactly the five fields, with grant_type `authorization_code` and the code. |
| TokenManager.RefreshForm | tradestation/tradestation.py:255-260 | The refresh form holds exactly the four fields, with grant_type `refresh_token` and the held refresh token. |
| TokenManager.Exchange | tradestation/tradestation.py:207-225 | It posts the code, and succeeds exactly on a 200 reply carrying both tokens. Success sets all three fields, with expiry `now + expires_in` (default 1200). A non-200 reply changes nothing. A missing access token raises and changes nothing. A missing refresh token leaves only the access token replaced. |
| TokenManager.Redirect | tradestation/tradestation.py:198-205 | A falsy code exchanges nothing and answers the "no code" text. A truthy code is exchanged: the exception and the token fields are those of `Exchange`. Completion is signalled, and the success page returned, exactly when that exchange succeeds. |
| TokenManager.RedirectOutcome | tradestation/tradestation.py:198-225 | With a truthy code, completion is signalled exactly when the reply is a 200 carrying both tokens. The tokens are then stored, with expiry `now + expires_in`. Any other status leaves tokens and signal as they were, raises with the body text, and returns no page. |
| TokenManager.RefreshAsWritten | tradestation/tradestation.py:252-262 | As written, the refresh never posts anything and always raises. |
| TokenManager.Refresh | tradestation/tradestation.py:252-268 | With no refresh token it raises NoRefreshToken before posting. A 200 reply replaces the access token and the expiry, and keeps the refresh token. Any failure leaves the state unchanged. |
| TokenManager.RefreshGuardFirst | tradestation/tradestation.py:252-253 | Without a refresh token the outcome does not depend on the endpoint's reply, and nothing is posted. |
| TokenManager.RefreshAsWrittenFails | tradestation/tradestation.py:262 | A state that the intended refresh would update still ends in `TypeError` as written. |
| TokenManager.WrappedDelay | tradestation/tradestation.py:239-240 | The sleep lies in [0, 86400) and differs from the remaining time by whole days. |
| TokenManager.WrappedDelayCases | tradestation/tradestation.py:239-240 | A remaining time within a day is slept exactly. A token overdue by k seconds sleeps 86400 − k, never 0. |
| TokenManager.OverdueSleepsADay | tradestation/tradestation.py:239-242 | One second overdue sleeps 86399 seconds. |
| TokenManager.ClampedDelay | tradestation/tradestation.py:240 | The intended sleep is never negative. It is zero exactly when the refresh is due, and otherwise ends at expiry − margin. |
| TokenManager.RefreshLoop | tradestation/tradestation.py:233-244 | Without a refresh token it returns at once, with no sleep and no post. With a refresh token but no `token_expiry` it raises AttributeError. Otherwise the first sleep is the clamped time to expiry − margin. There is at most one round per tick, every sleep is non-negative, and at most one form is posted per round. |
| TokenManager.RoundUnfold | tradestation/tradestation.py:238-244 | One round sleeps, refreshes, and either stops on the exception or goes on from the refreshed state. |
| TokenManager.RefreshLoopSleepsToMargin | tradestation/tradestation.py:238-244 | Each round after the first sleeps until margin seconds before the expiry the previous refresh set. That expiry is the previous round's wake time plus the reply's lifetime. |
| TokenManager.RefreshLoopRunsEveryTick | tradestation/tradestation.py:233-244 | Started with a refresh token and an expiry, the loop keeps the refresh token. Unless a refresh raises, it runs a round per tick and posts the same refresh form each time. |
| TokenManager.Session.constructor | tradestation/tradestation.py:169-172 | Construction starts with no tokens and no signal. |
| TokenManager.Session.ExchangeCodeForToken | tradestation/tradestation.py:207-225 | The fields change as `Exchange` describes. |
| TokenManager.Session.HandleAuthRedirect | tradestation/tradestation.py:198-205 | The fields change as `Redirect` describes. |
| TokenManager.Session.RefreshAccessToken | tradestation/tradestation.py:246-268 | The fields change as `Refresh` describes. |
| TokenManager.Session.RefreshTokenLoop | tradestation/tradestation.py:227-244 | The loop's sleeps, posts and final fields are those of `RefreshLoop`. |
| LegacyClient.LoadEnv | tradestation.py:52-63 | PORT is converted first: a value `int()` refuses raises at once, and an absent PORT means 8080. Loading then succeeds exactly when CLIENT_ID, CLIENT_SECRET, AUTH_URL and TOKEN_URL are truthy. The redirect URI is `http://localhost:<port>/`. |
| LegacyClient.PortRoundTrip | tradestation.py:58-60 | A port written as `str` writes it is read back into the redirect URI. No PORT gives `http://localhost:8080/`. |
| LegacyClient.ParseUrlEncode | tradestation.py:22 | `parse_qsl(urlencode(pairs)) == pairs` for ASCII keys and non-empty ASCII values, including the empty list (an empty query decodes to no pairs). |
| LegacyClient.AuthorizeUrlParams | tradestation.py:65-75 | The URL is `auth_url`, one `?`, and a query that decodes to exactly the six parameters in order: response_type=code, client_id, the audience, redirect_uri, the fixed scope and state `xyzv`. |
| LegacyClient.TokenUpdateAsWritten | tradestation.py:112-123 | As written, the update always raises. The fields it leaves behind are those of the intended update. |
| LegacyClient.TokenUpdate | tradestation.py:112-123 | It succeeds exactly on a 200 reply with both tokens. Success replaces both tokens, with expiry `now + expires_in − 5` (default 1200), and schedules the refresh for that instant. A non-200 reply leaves the tokens untouched. A missing access token raises and changes nothing. A missing refresh token leaves only the access token replaced. |
| LegacyClient.ScheduleAlwaysFails | tradestation.py:119-121 | A 200 reply with both tokens updates the fields and still raises as written. The intended update schedules the refresh 55 seconds ahead. |
| LegacyClient.LegacyRefresh | tradestation.py:96-108 | With no refresh token it raises before any POST. Otherwise it posts the refresh form and applies the token update. |
| LegacyClient.OnCallback | tradestation.py:20-35 | Without a `code` value the server answers 400 and exchanges nothing. Otherwise it answers 200 and exchanges the first `code` value. |
| LegacyClient.CallbackExchangesCode | tradestation.py:21-35 | The redirect `/?code=c&state=s` exchanges exactly `c`. |
| LegacyClient.SingleItemQuery | tradestation.py:22 | A query of one `name=value` item with a non-empty value decodes to exactly that pair, unquoted. |
| LegacyClient.CallbackLowerCaseEscape | tradestation.py:21-35 | The redirect `/?code=a%2fb` exchanges `a/b`. |
| LegacyClient.LegacyTickBarsCall | tradestation.py:222-259 | A range-check failure raises before the request. Otherwise the loop runs. |
| LegacyClient.LegacySession.constructor | tradestation.py:45-49 | Construction starts with no tokens. |
| LegacyClient.LegacySession.HandleTokenResponse | tradestation.py:110-123 | The fields change as `TokenUpdate` describes. |
| LegacyClient.LegacySession.ExchangeCodeForToken | tradestation.py:84-94 | It posts the exchange form, and the fields change as `TokenUpdate` describes. |
| LegacyClient.LegacySession.RefreshAccessToken | tradestation.py:96-108 | The post and the field changes are those of `LegacyRefresh`. |
| LegacyClient.LegacySession.DoGet | tradestation.py:20-38 | The answer, the post and the field changes are those of `OnCallback`. |

## Left out

- The network: `httpx`, `requests`, the aiohttp and `HTTPServer` callback listeners, and the token endpoint. Their replies are inputs. The browser launch, the threads, the event loop, the `_authenticate` spin-wait and `asyncio.sleep` are not modelled.
- Time is whole seconds. The sub-second part of `timedelta` and a fractional `refresh_token_margin` are not modelled.
- Rendering of datetimes (`isoformat()`, `strftime`) is a symbolic leaf value, not text.
- JSON decoding is the `parse` parameter. A 200 reply whose body is not JSON is modelled only in `Dispatcher.Outcome`. The token replies are assumed to decode.
- Token reply fields are taken to be strings and an integer. A key that is present with a JSON `null` value is not distinguished from an absent key.
- `int()` accepts only an optional sign and ASCII digits here. The whitespace and underscore forms Python also accepts are not modelled.
- `quote_plus` is modelled fully. Unquoting decodes each valid `%XX` escape to the single character with code XX. For escapes of bytes 0x80 and above, Python instead decodes the byte sequence as UTF-8, which is not modelled. The round trips are stated for ASCII text.
- Dictionary key order is not modelled (maps are unordered). The `urlencode` query keeps its pair order.
- The `repr` of a `bytes` line in the root client's InvalidJSON message has no escaping. `line.decode("utf-8")` failures are not modelled.
- StreamReader.ReadLines: the generators are lazy. The model collects the yielded values and the final exception. Streams whose handlers raise, or that the caller abandons, are not modelled.
- StreamReader.ConsumeStream: the line loop runs to completion before the values are routed. The results are the same because the calls are recorded before the exception.
- `Order.to_dict` and `replace_order`: the nested dictionaries are completed in locals before they are stored, and each chain is split across helper methods. The resulting value is the same as the source's in-place update.
- The root client's `stream_tick_bars` builds `params` but never sends them, so the model checks them and drops them.
- The package's `aget_bars` (tradestation/tradestation.py:482) passes its `params` dictionary positionally into the `url` parameter of `_asend_request`. A dictionary is truthy, so the URL is not resolved and the request is made with the dictionary as its URL, which fails before anything is sent. It is not modelled, and `BarRequests.BarsParams` describes `get_bars` only.
- LegacyClient.OnCallback, LegacyClient.LegacySession.DoGet: `do_GET` opens `auth_success.html` in the working directory after answering 200 and before exchanging the code (tradestation.py:30-31). Without that file it raises `FileNotFoundError` and no code is exchanged. The model takes the page to be readable, so it always exchanges the code once a `code` value is present.
- LegacyClient.TokenUpdate: the `ValueError` of a non-200 reply quotes the decoded body (tradestation.py:123), and so do the members that use it. The model carries the reply's raw text in `TokenRequestFailed`, which is exact only for the package client (tradestation/tradestation.py:225).
- The root client's `astream_tick_bars` has a `json.JSONDecodeError` handler that nothing can trigger. It is not modelled.
- The package's `TradeStation.__init__` credential fallback to the environment, and its asserts, are not modelled.
- The package's `_handle_token_response` (tradestation/tradestation.py:270-283) is never called by the package. It is the same update as the root one without the 5 seconds and without the scheduling.
- The per-endpoint wrappers other than those named above are left out: accounts, balances, orders, positions, group orders and confirmations. They only pass parameters through to the dispatchers.
- TokenManager.RefreshLoop: the `while True` loop runs one round per supplied tick. Running out of ticks is indistinguishable from the loop returning.
- TokenManager.RefreshLoop and TokenManager.Session.RefreshTokenLoop use the intended refresh and the intended delay (see Findings), not the as-written ones.
- LegacyClient.LegacySession.HandleTokenResponse uses the intended update (see Findings). The `call_later` callback itself is not modelled.
- TokenManager.Session.RefreshAccessToken, LegacyClient.LegacyRefresh, LegacyClient.OnCallback, LegacyClient.LegacySession.ExchangeCodeForToken, LegacyClient.LegacySession.RefreshAccessToken and LegacyClient.LegacySession.DoGet also run the intended refresh or token update. The source raises `TypeError` (package refresh) or fails to schedule (root update) at those points. The as-written behaviour is stated only by TokenManager.RefreshAsWritten and LegacyClient.TokenUpdateAsWritten.

## Findings

| source | as written | input that shows it | evidently intended | confidence | as-written member | corrected member |
|---|---|---|---|---|---|---|
| tradestation/tradestation.py:262 | `_refresh_access_token` calls `_asend_request(url=..., data=data, headers=...)`, but `_asend_request` (321-327) has no `data` parameter. Every refresh raises `TypeError` before any request. | A state holding refresh token `"r"`, with an endpoint that would answer 200 with access token `"new"` | Post the refresh form. On 200, store the new access token and expiry. | high, not executed | TokenManager.RefreshAsWritten, TokenManager.RefreshAsWrittenFails | TokenManager.Refresh |
| tradestation/tradestation.py:239-240 | `max(refresh_in.seconds, 0)` uses the wrapped seconds component of the `timedelta`, so an overdue expiry sleeps almost a day | expiry 1000, now 941, margin 60: sleeps 86399 s | Sleep for the remaining time, or not at all once due (`max(total_seconds, 0)`) | high, not executed | TokenManager.WrappedDelay, TokenManager.OverdueSleepsADay | TokenManager.ClampedDelay |
| tradestation.py:119-121 | `loop.call_later(self.expires_in, ...)` is given the expiry `datetime` where it takes a delay in seconds. It raises after the tokens are stored, so no refresh is ever scheduled. When called from the callback server's thread, `asyncio.get_event_loop()` raises first. | A 200 reply `{access_token: "A", refresh_token: "R", expires_in: 60}` at time 1000 | Schedule the refresh `expires_in − 5` seconds ahead | medium, not executed | LegacyClient.TokenUpdateAsWritten, LegacyClient.ScheduleAlwaysFails | LegacyClient.TokenUpdate |
